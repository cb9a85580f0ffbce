/// `src/channel/safety.rs`: a one-message channel whose `Sender` and `Receiver` each own an
/// `Arc` of the shared channel, and whose `send` and `receive` consume their handle, so that
/// the type system rules out a second send or a second receive. The standard `Arc` is modelled
/// by two flags saying which handle is still alive; the channel is dropped when both are gone.
module SafetyChannel {
  import opened Base

  /** The shared channel, the strong count of its `Arc`, and its two handles. `sent` records the messages that went in,
      `exits` how each one left: received, or destroyed by `Drop for Channel`. */
  datatype Channel<T> = Channel(
    message: Slot<T>,
    ready: bool,
    refs: nat,
    senderAlive: bool,
    receiverAlive: bool,
    dropped: bool,
    sent: seq<T>,
    exits: seq<Exit<T>>)

  /** The message still owned by the channel. */
  function Pending<T>(c: Channel<T>): (p: seq<T>)
    ensures |p| <= 1
    ensures p != [] <==> c.ready && !c.dropped && c.message.Written?
  {
    if c.ready && !c.dropped && c.message.Written? then [c.message.value] else []
  }

  /** `ready` says exactly whether the slot holds a message nobody owns yet; every message
      sent is either still there or has left exactly once; the channel is dropped exactly when
      both handles are gone, and only a live `Sender` can still send. */
  ghost predicate Inv<T>(c: Channel<T>) {
    MessageInv(c) && c.refs == Handles(c) && (c.dropped <==> c.refs == 0)
  }

  /** The handles still alive. */
  function Handles<T>(c: Channel<T>): nat {
    (if c.senderAlive then 1 else 0) + (if c.receiverAlive then 1 else 0)
  }

  /** The part of `Inv` about the message. */
  ghost predicate MessageInv<T>(c: Channel<T>) {
    |c.sent| <= 1 &&
    ExitValues(c.exits) + Pending(c) == c.sent &&
    (c.message.Uninit? <==> c.sent == []) &&
    (c.ready ==> c.message.Written?) &&
    (c.message.Written? && !c.dropped ==> c.ready) &&
    (c.message.MovedOut? ==> c.exits == [Received(c.message.value)]) &&
    (c.sent != [] ==> !c.senderAlive)
  }

  /** `channel()`: an uninitialised slot, `ready` false, and both handles alive. */
  function New<T>(): (c: Channel<T>)
    ensures Inv(c) && c.senderAlive && c.receiverAlive && !c.ready && c.sent == []
  {
    Channel(Uninit, false, 2, true, true, false, [], [])
  }

  /** One `Arc` was dropped; the last one runs `Drop for Channel`, which destroys the message
      if `ready` is still set. */
  function ReleaseHandle<T>(c: Channel<T>): Channel<T> {
    if c.refs > 1 then c.(refs := c.refs - 1)
    else if c.ready && c.message.Written? then
      c.(refs := 0, dropped := true, exits := c.exits + [Destroyed(c.message.value)])
    else c.(refs := 0, dropped := true)
  }

  /** `Sender::send`: write the message, set `ready`, and drop the `Sender`. */
  function SendStep<T>(c: Channel<T>, v: T): Channel<T>
    requires c.senderAlive
  {
    ReleaseHandle(c.(message := Written(v), ready := true, sent := c.sent + [v], senderAlive := false))
  }

  /** The `Sender` is dropped without sending. */
  function DropSenderStep<T>(c: Channel<T>): Channel<T>
    requires c.senderAlive
  {
    ReleaseHandle(c.(senderAlive := false))
  }

  /** `Receiver::receive`: swap `ready` to false; if it was false, panic. Either way the
      `Receiver` is consumed, by the return or by the unwinding. */
  function ReceiveStep<T>(c: Channel<T>): Step<Channel<T>>
    requires c.receiverAlive
  {
    if !c.ready || !c.message.Written? then
      Step(ReleaseHandle(c.(ready := false, receiverAlive := false)), Panicked)
    else
      var v := c.message.value;
      Step(ReleaseHandle(c.(ready := false, message := MovedOut(v), receiverAlive := false,
                      exits := c.exits + [Received(v)])), Done)
  }

  /** The `Receiver` is dropped without receiving. */
  function DropReceiverStep<T>(c: Channel<T>): Channel<T>
    requires c.receiverAlive
  {
    ReleaseHandle(c.(receiverAlive := false))
  }

  lemma ExitValuesAppend<T>(exits: seq<Exit<T>>, e: Exit<T>)
    ensures ExitValues(exits + [e]) == ExitValues(exits) + [e.value]
  {
    assert (exits + [e])[..|exits|] == exits;
  }

  /** Called on a state in which one handle has just been consumed and `refs` still counts it. */
  lemma ReleaseHandleSpec<T>(c: Channel<T>)
    requires MessageInv(c) && !c.dropped && c.refs == Handles(c) + 1
    ensures Inv(ReleaseHandle(c))
    ensures ReleaseHandle(c).sent == c.sent
    ensures ReleaseHandle(c).dropped <==> c.refs == 1
  {
    if !c.senderAlive && !c.receiverAlive && c.ready && c.message.Written? {
      ExitValuesAppend(c.exits, Destroyed(c.message.value));
    }
  }

  lemma SendSpec<T>(c: Channel<T>, v: T)
    requires Inv(c) && c.senderAlive
    ensures Inv(SendStep(c, v)) && SendStep(c, v).sent == [v]
    ensures c.receiverAlive ==> Pending(SendStep(c, v)) == [v]
    ensures !c.receiverAlive ==> SendStep(c, v).exits == c.exits + [Destroyed(v)]
  {
    var c1 := c.(message := Written(v), ready := true, sent := c.sent + [v], senderAlive := false);
    ReleaseHandleSpec(c1);
  }

  lemma DropSenderSpec<T>(c: Channel<T>)
    requires Inv(c) && c.senderAlive
    ensures Inv(DropSenderStep(c)) && DropSenderStep(c).sent == c.sent
  {
    ReleaseHandleSpec(c.(senderAlive := false));
  }

  lemma ReceiveSpec<T>(c: Channel<T>)
    requires Inv(c) && c.receiverAlive
    ensures Inv(ReceiveStep(c).next)
    ensures ReceiveStep(c).status == Done <==> c.ready
    ensures ReceiveStep(c).status == Done ==>
      c.sent == [c.message.value] &&
      ReceiveStep(c).next.exits == [Received(c.message.value)]
    ensures ReceiveStep(c).status != Done ==> ReceiveStep(c).next.exits == c.exits
  {
    if c.ready && c.message.Written? {
      var v := c.message.value;
      ExitValuesAppend(c.exits, Received(v));
      ReleaseHandleSpec(c.(ready := false, message := MovedOut(v), receiverAlive := false,
                     exits := c.exits + [Received(v)]));
    } else {
      ReleaseHandleSpec(c.(ready := false, receiverAlive := false));
    }
  }

  lemma DropReceiverSpec<T>(c: Channel<T>)
    requires Inv(c) && c.receiverAlive
    ensures Inv(DropReceiverStep(c)) && DropReceiverStep(c).sent == c.sent
    ensures DropReceiverStep(c).dropped <==> !c.senderAlive
  {
    ReleaseHandleSpec(c.(receiverAlive := false));
  }

  datatype Op<T> = Send(value: T) | DropSender | Receive | DropReceiver

  /** The caller owns the handle the operation consumes. */
  predicate Enabled<T>(c: Channel<T>, op: Op<T>) {
    match op
    case Send(_) => c.senderAlive
    case DropSender => c.senderAlive
    case Receive => c.receiverAlive
    case DropReceiver => c.receiverAlive
  }

  /** One operation; a panicking `receive` unwinds its thread and drops the `Receiver`. */
  function Apply<T>(c: Channel<T>, op: Op<T>): Option<Channel<T>> {
    if !Enabled(c, op) then None
    else match op
      case Send(v) => Some(SendStep(c, v))
      case DropSender => Some(DropSenderStep(c))
      case Receive => Some(ReceiveStep(c).next)
      case DropReceiver => Some(DropReceiverStep(c))
  }

  function Run<T>(c: Channel<T>, ops: seq<Op<T>>): Option<Channel<T>>
    decreases |ops|
  {
    if ops == [] then Some(c)
    else match Apply(c, ops[0])
      case None => None
      case Some(c') => Run(c', ops[1..])
  }

  lemma ApplyKeepsInv<T>(c: Channel<T>, op: Op<T>)
    requires Inv(c)
    ensures Apply(c, op).Some? ==> Inv(Apply(c, op).value)
  {
    if Enabled(c, op) {
      match op
      case Send(v) => SendSpec(c, v);
      case DropSender => DropSenderSpec(c);
      case Receive => ReceiveSpec(c);
      case DropReceiver => DropReceiverSpec(c);
    }
  }

  lemma {:induction false} RunKeepsInv<T>(c: Channel<T>, ops: seq<Op<T>>)
    requires Inv(c)
    ensures Run(c, ops).Some? ==> Inv(Run(c, ops).value)
    decreases |ops|
  {
    if ops != [] {
      ApplyKeepsInv(c, ops[0]);
      if Apply(c, ops[0]).Some? {
        RunKeepsInv(Apply(c, ops[0]).value, ops[1..]);
      }
    }
  }

  /** Whatever order the handles are used and dropped in: at most one message is sent, a
      message is received only if it was sent, and once both handles are gone every message
      sent has left the channel exactly once, received or destroyed, so nothing leaks and
      nothing is dropped twice. */
  lemma NoLeakNoDoubleDrop<T>(ops: seq<Op<T>>)
    requires Run(New(), ops).Some?
    ensures var c := Run(New(), ops).value;
      |c.sent| <= 1 && |c.exits| <= |c.sent| &&
      (c.dropped ==> ExitValues(c.exits) == c.sent)
  {
    RunKeepsInv(New(), ops);
    var c := Run(New(), ops).value;
    assert |ExitValues(c.exits) + Pending(c)| == |c.sent|;
    if c.dropped {
      assert ExitValues(c.exits) + [] == ExitValues(c.exits);
    }
  }

  /** The shared `Channel` behind the two `Arc`s. */
  class SharedChannel<T> {
    var message: Slot<T>
    var ready: bool
    var refs: nat
    ghost var senderAlive: bool
    ghost var receiverAlive: bool
    ghost var dropped: bool
    ghost var sent: seq<T>
    ghost var exits: seq<Exit<T>>

    ghost function Model(): Channel<T>
      reads this
    {
      Channel(message, ready, refs, senderAlive, receiverAlive, dropped, sent, exits)
    }

    ghost predicate Valid()
      reads this
    {
      Inv(Model())
    }

    /** `channel()`. */
    constructor ()
      ensures Model() == New() && Valid()
    {
      message, ready, refs := Uninit, false, 2;
      senderAlive, receiverAlive, dropped := true, true, false;
      sent, exits := [], [];
    }

    /** The drop of one `Arc`, and `Drop for Channel` after the last. */
    method Release()
      modifies this
      ensures Model() == ReleaseHandle(old(Model()))
    {
      if refs > 1 {
        refs := refs - 1;
        return;
      }
      refs, dropped := 0, true;
      if ready && message.Written? {
        exits := exits + [Destroyed(message.value)];
      }
    }

    /** `Sender::send`. */
    method Send(v: T)
      requires Valid() && senderAlive
      modifies this
      ensures Model() == SendStep(old(Model()), v)
    {
      message := Written(v);
      ready := true;
      sent := sent + [v];
      senderAlive := false;
      Release();
    }

    /** Dropping an unused `Sender`. */
    method DropSender()
      requires Valid() && senderAlive
      modifies this
      ensures Model() == DropSenderStep(old(Model()))
    {
      senderAlive := false;
      Release();
    }

    /** `Receiver::is_ready`. */
    method IsReady() returns (r: bool)
      requires Valid() && receiverAlive
      ensures r <==> Pending(Model()) == sent != []
    {
      r := ready;
    }

    /** `Receiver::receive`; `None` stands for the panic. */
    method Receive() returns (r: Option<T>)
      requires Valid() && receiverAlive
      modifies this
      ensures Model() == ReceiveStep(old(Model())).next
      ensures r.Some? <==> old(ready)
      ensures r.Some? ==> old(sent) == [r.value] && exits == [Received(r.value)]
    {
      var wasReady := ready;
      ready := false;
      if !wasReady || !message.Written? {
        receiverAlive := false;
        Release();
        r := None;
        ReceiveSpec(old(Model()));
        return;
      }
      var v := message.value;
      message := MovedOut(v);
      exits := exits + [Received(v)];
      receiverAlive := false;
      Release();
      r := Some(v);
      ReceiveSpec(old(Model()));
    }

    /** Dropping an unused `Receiver`. */
    method DropReceiver()
      requires Valid() && receiverAlive
      modifies this
      ensures Model() == DropReceiverStep(old(Model()))
    {
      receiverAlive := false;
      Release();
    }
  }

  /** The module's test: the message sent is seen ready and received, and the channel,
      dropped with the `Receiver`, destroys nothing more. */
  method SendThenReceive<T>(v: T) returns (ready: bool, r: Option<T>)
    ensures ready && r == Some(v)
  {
    var chan := new SharedChannel();
    chan.Send(v);
    ready := chan.IsReady();
    r := chan.Receive();
    assert chan.dropped && chan.exits == [Received(v)];
  }
}
