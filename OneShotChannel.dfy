/// `src/channel/one_shot.rs`: a one-message channel shared by reference. An atomic state word
/// (Empty, Writing, Ready, Reading) guards a `MaybeUninit<T>` message slot.
module OneShotChannel {
  import opened Base

  /** The four states the atomic word points at. */
  datatype State = Empty | Writing | Ready | Reading

  /** The channel. `inFlight` is the message of a `send` that has swapped in `Writing` and not
      yet published; `sent` and `received` record the messages that went into the slot and came
      out of it. */
  datatype Channel<T> =
    Channel(state: State, msg: Slot<T>, inFlight: Option<T>, sent: seq<T>, received: seq<T>)

  /** What `Drop for Channel` does to the slot: nothing, or `assume_init_drop` on a slot that
      holds a message, on one never written, or on one whose message was already read out. */
  datatype Disposal<T> = Nothing | DropsMessage(value: T) | DropsUninit | DropsMovedOut(value: T)

  /** The message still waiting in the slot, if any. */
  function Pending<T>(c: Channel<T>): (p: seq<T>)
    ensures |p| <= 1
    ensures p != [] <==> c.msg.Written?
  {
    if c.msg.Written? then [c.msg.value] else []
  }

  /** At most one message is ever accepted; it is in the slot until it is read and every
      message read is the one sent. The state word tells the slot's contents, except that a
      failed `send` leaves `Writing` over whatever was there. A `send` between its swap and its
      store writes into a slot nobody else touches. */
  ghost predicate Inv<T>(c: Channel<T>) {
    |c.sent| <= 1 &&
    c.received + Pending(c) == c.sent &&
    (c.msg.Uninit? <==> c.sent == []) &&
    (c.state == Empty ==> c.msg.Uninit? && c.inFlight.None?) &&
    (c.msg.Uninit? ==> (c.state == Empty <==> c.inFlight.None?)) &&
    (c.inFlight.Some? ==> c.msg.Uninit? && c.state == Writing) &&
    (c.state == Ready ==> c.msg.Written?) &&
    (c.state == Reading ==> c.msg.MovedOut?) &&
    (c.msg.MovedOut? ==> c.received == c.sent && c.msg.value == c.sent[0])
  }

  /** `Writing` means exactly that a `send` is between its two steps. The program does not keep
      this: a failing `send` stores `Writing` too. */
  ghost predicate WritingMeansInFlight<T>(c: Channel<T>) {
    c.state == Writing <==> c.inFlight.Some?
  }

  /** `Channel::new`: the state is `Empty` and the slot uninitialised. */
  function New<T>(): (c: Channel<T>)
    ensures Inv(c) && WritingMeansInFlight(c) && c.state == Empty && c.sent == [] && c.received == []
  {
    Channel(Empty, Uninit, None, [], [])
  }

  /** The first step of `send` as written: swap the state to `Writing`. If it was not `Empty`
      the call panics, leaving `Writing` behind; otherwise the caller owns the slot. */
  function SwapStep<T>(c: Channel<T>, v: T): Step<Channel<T>> {
    if c.state != Empty then Step(c.(state := Writing), Panicked)
    else Step(c.(state := Writing, inFlight := Some(v)), Done)
  }

  /** The first step of `send` as evidently intended: compare-exchange `Empty` to `Writing`, so
      that a failing call panics without touching the state. */
  function ClaimStep<T>(c: Channel<T>, v: T): Step<Channel<T>> {
    if c.state != Empty then Step(c, Panicked)
    else Step(c.(state := Writing, inFlight := Some(v)), Done)
  }

  /** The second step of `send`: write the message into the slot, then store `Ready`. */
  function PublishStep<T>(c: Channel<T>): Channel<T>
    requires c.inFlight.Some?
  {
    var v := c.inFlight.value;
    c.(state := Ready, msg := Written(v), inFlight := None, sent := c.sent + [v])
  }

  /** `receive`: compare-exchange `Ready` to `Reading`; on failure panic with nothing changed,
      on success read the message out of the slot. */
  function ReceiveStep<T>(c: Channel<T>): Step<Channel<T>> {
    if c.state != Ready || !c.msg.Written? then Step(c, Panicked)
    else
      var v := c.msg.value;
      Step(c.(state := Reading, msg := MovedOut(v), received := c.received + [v]), Done)
  }

  /** `Drop for Channel` as written (one_shot.rs:72-81): return unless the state is `Empty`,
      and call `assume_init_drop` when it is. */
  function DisposalAsWritten<T>(c: Channel<T>): Disposal<T> {
    if c.state != Empty then Nothing
    else match c.msg
      case Uninit => DropsUninit
      case Written(v) => DropsMessage(v)
      case MovedOut(v) => DropsMovedOut(v)
  }

  /** `Drop for Channel` as evidently intended: destroy the message exactly when the state
      says one is waiting, that is, when it is `Ready`. */
  function DisposalCorrected<T>(c: Channel<T>): Disposal<T> {
    if c.state == Ready && c.msg.Written? then DropsMessage(c.msg.value) else Nothing
  }

  /** The messages a disposal destroys. */
  function DestroyedBy<T>(d: Disposal<T>): (vs: seq<T>)
    ensures |vs| <= 1
  {
    if d.DropsMessage? then [d.value] else []
  }

  /** The swap panics exactly when the state was not `Empty`; otherwise the caller alone holds
      the slot. Either way the invariant holds. */
  lemma SwapSpec<T>(c: Channel<T>, v: T)
    requires Inv(c)
    ensures Inv(SwapStep(c, v).next)
    ensures SwapStep(c, v).status == Done <==> c.state == Empty
    ensures SwapStep(c, v).status == Done ==>
      SwapStep(c, v).next.inFlight == Some(v) && SwapStep(c, v).next.sent == []
    ensures SwapStep(c, v).status != Done ==> SwapStep(c, v).next == c.(state := Writing)
  {
  }

  /** The corrected first step fails exactly when the state was not `Empty`, and then changes
      nothing. */
  lemma ClaimSpec<T>(c: Channel<T>, v: T)
    requires Inv(c) && WritingMeansInFlight(c)
    ensures Inv(ClaimStep(c, v).next) && WritingMeansInFlight(ClaimStep(c, v).next)
    ensures ClaimStep(c, v).status == Done <==> c.state == Empty
    ensures ClaimStep(c, v).status == Done ==> ClaimStep(c, v).next.inFlight == Some(v)
    ensures ClaimStep(c, v).status != Done ==> ClaimStep(c, v).next == c
  {
  }

  /** Publishing makes the in-flight message the one sent, waiting in the slot, with the state
      `Ready`, whatever failed sends did to the state meanwhile. */
  lemma PublishSpec<T>(c: Channel<T>)
    requires Inv(c) && c.inFlight.Some?
    ensures Inv(PublishStep(c)) && WritingMeansInFlight(PublishStep(c))
    ensures PublishStep(c).state == Ready && PublishStep(c).sent == [c.inFlight.value]
    ensures Pending(PublishStep(c)) == [c.inFlight.value] && PublishStep(c).received == []
  {
  }

  lemma ReceiveSpec<T>(c: Channel<T>)
    requires Inv(c)
    ensures Inv(ReceiveStep(c).next)
    ensures WritingMeansInFlight(c) ==> WritingMeansInFlight(ReceiveStep(c).next)
    ensures ReceiveStep(c).status == Done <==> c.state == Ready
    ensures ReceiveStep(c).status == Done ==>
      c.sent == [c.msg.value] && ReceiveStep(c).next.received == c.sent &&
      ReceiveStep(c).next.state == Reading && Pending(ReceiveStep(c).next) == []
    ensures ReceiveStep(c).status != Done ==> ReceiveStep(c).next == c
  {
  }

  /** A message is received only after it was sent, and is the one sent. */
  lemma ReceivedWasSent<T>(c: Channel<T>)
    requires Inv(c)
    ensures |c.received| <= |c.sent| <= 1
    ensures c.received != [] ==> c.received == c.sent
    ensures c.state == Ready ==> Pending(c) == c.sent && c.received == []
  {
  }

  /** One atomic step by some thread: the first or the second step of a `send`, or a
      `receive`. `Publish` is taken by the thread whose swap succeeded. */
  datatype Op<T> = Send(value: T) | Publish | Receive

  /** One step, with the `send` of the program (`fixedSend` false) or the corrected one. A
      panicking call unwinds its own thread only; the channel stays shared and keeps the state
      the call left. `Publish` with no `send` in flight is no thread's step and changes nothing. */
  function Apply<T>(c: Channel<T>, op: Op<T>, fixedSend: bool): Step<Channel<T>> {
    match op
    case Send(v) => if fixedSend then ClaimStep(c, v) else SwapStep(c, v)
    case Publish => if c.inFlight.Some? then Step(PublishStep(c), Done) else Step(c, Done)
    case Receive => ReceiveStep(c)
  }

  function Run<T>(c: Channel<T>, ops: seq<Op<T>>, fixedSend: bool): Channel<T>
    decreases |ops|
  {
    if ops == [] then c else Run(Apply(c, ops[0], fixedSend).next, ops[1..], fixedSend)
  }

  /** Any interleaving keeps the invariant; with the corrected `send` it also keeps `Writing`
      meaning that a `send` is in flight. */
  lemma {:induction false} RunKeepsInv<T>(c: Channel<T>, ops: seq<Op<T>>, fixedSend: bool)
    requires Inv(c)
    ensures Inv(Run(c, ops, fixedSend))
    ensures fixedSend && WritingMeansInFlight(c) ==> WritingMeansInFlight(Run(c, ops, fixedSend))
    decreases |ops|
  {
    if ops != [] {
      match ops[0] {
        case Send(v) => SwapSpec(c, v); if fixedSend && WritingMeansInFlight(c) { ClaimSpec(c, v); }
        case Publish => if c.inFlight.Some? { PublishSpec(c); }
        case Receive => ReceiveSpec(c);
      }
      RunKeepsInv(Apply(c, ops[0], fixedSend).next, ops[1..], fixedSend);
    }
  }

  /** Whatever the threads do, at most one message is ever accepted and whatever is received
      is that message. */
  lemma AtMostOneMessage<T>(ops: seq<Op<T>>)
    ensures |Run(New(), ops, false).sent| <= 1
    ensures Run(New(), ops, false).received != [] ==>
      Run(New(), ops, false).received == Run(New(), ops, false).sent
  {
    RunKeepsInv(New(), ops, false);
  }

  /** A `send` that fails while another is between its two steps does not stop the message:
      the first sender still publishes it and the channel ends `Ready` with it waiting. */
  lemma FailedSendDuringWrite<T>(v: T, w: T)
    ensures var c := Run(New(), [Send(v), Send(w), Publish], false);
      c.state == Ready && Pending(c) == [v] && c.sent == [v]
  {
    var c1 := SwapStep(New(), v).next;
    var c2 := SwapStep(c1, w).next;
    assert Run(New(), [Send(v), Send(w), Publish], false) == Run(c1, [Send(w), Publish], false);
    assert Run(c1, [Send(w), Publish], false) == Run(c2, [Publish], false);
  }

  /** As written, a second `send` after the first one completed swaps `Writing` over `Ready`
      before it panics. The message then can neither be received (`receive` panics) nor is it
      destroyed by `Drop`, even the corrected one: it is stranded. */
  lemma PanickingSendStrandsMessage<T>(v: T, w: T)
    ensures var c := Run(New(), [Send(v), Publish, Send(w)], false);
      Inv(c) && c.inFlight.None? && c.state == Writing && Pending(c) == [v] &&
      ReceiveStep(c).status == Panicked && DisposalCorrected(c) == Nothing
  {
    var c1 := SwapStep(New(), v).next;
    var c2 := PublishStep(c1);
    assert Run(New(), [Send(v), Publish, Send(w)], false) == Run(c1, [Publish, Send(w)], false);
    assert Run(c1, [Publish, Send(w)], false) == Run(c2, [Send(w)], false);
    assert Run(c2, [Send(w)], false) == Run(SwapStep(c2, w).next, [], false);
    SwapSpec(New(), v);
    PublishSpec(c1);
    SwapSpec(c2, w);
  }

  /** As written, dropping a channel that never carried a message calls `assume_init_drop`
      on an uninitialised slot. */
  lemma DropAsWrittenDestroysUninit<T>()
    ensures DisposalAsWritten(New<T>()) == DropsUninit
  {
  }

  /** As written, dropping a channel whose message was sent but not received destroys
      nothing: the message leaks. */
  lemma DropAsWrittenLeaks<T>(v: T)
    ensures var c := PublishStep(SwapStep(New(), v).next);
      Pending(c) == [v] && DisposalAsWritten(c) == Nothing
  {
  }

  /** As written, `Drop` touches the slot exactly when the state is `Empty`, which is exactly
      when the slot was never written. */
  lemma DropAsWrittenSpec<T>(c: Channel<T>)
    requires Inv(c)
    ensures DisposalAsWritten(c) != Nothing <==> c.state == Empty
    ensures DisposalAsWritten(c) != Nothing ==> DisposalAsWritten(c) == DropsUninit && c.sent == []
    ensures c.inFlight.None? ==> (DisposalAsWritten(c) != Nothing <==> c.sent == [])
  {
  }

  /** The corrected `Drop` never touches an uninitialised or read-out slot, and destroys exactly
      the message pending while the state is `Ready`. When the state is not a `Writing` left by
      a failed `send`, each sent message is then received or destroyed, once. */
  lemma DropCorrectedSpec<T>(c: Channel<T>)
    requires Inv(c)
    ensures !DisposalCorrected(c).DropsUninit? && !DisposalCorrected(c).DropsMovedOut?
    ensures DestroyedBy(DisposalCorrected(c)) == (if c.state == Ready then Pending(c) else [])
    ensures c.state != Writing ==> c.received + DestroyedBy(DisposalCorrected(c)) == c.sent
  {
  }

  /** With both corrections, whatever the threads did: when the channel is dropped (which needs
      it exclusively, so no `send` is in flight) every message sent is received or destroyed,
      exactly once. */
  lemma NoLeakWithCorrectedSend<T>(ops: seq<Op<T>>)
    ensures var c := Run(New(), ops, true);
      c.inFlight.None? ==>
        c.state != Writing && c.received + DestroyedBy(DisposalCorrected(c)) == c.sent
  {
    RunKeepsInv(New(), ops, true);
    DropCorrectedSpec(Run(New(), ops, true));
  }

  /** The channel as one object: `state` and `msg` are its fields. */
  class OneShot<T> {
    var state: State
    var msg: Slot<T>
    ghost var inFlight: Option<T>
    ghost var sent: seq<T>
    ghost var received: seq<T>

    ghost function Model(): Channel<T>
      reads this
    {
      Channel(state, msg, inFlight, sent, received)
    }

    ghost predicate Valid()
      reads this
    {
      Inv(Model())
    }

    /** `Channel::new`. */
    constructor ()
      ensures Model() == New() && Valid()
    {
      state, msg := Empty, Uninit;
      inFlight := None;
      sent, received := [], [];
    }

    /** `send`, its two steps back to back: the swap, then the write and the store. */
    method Send(v: T) returns (panicked: bool)
      requires Valid()
      modifies this
      ensures panicked <==> old(state) != Empty
      ensures panicked ==> Model() == SwapStep(old(Model()), v).next
      ensures !panicked ==> Model() == PublishStep(SwapStep(old(Model()), v).next)
    {
      var prev := state;
      state := Writing;
      if prev != Empty {
        panicked := true;
        return;
      }
      inFlight := Some(v);
      msg := Written(v);
      sent := sent + [v];
      inFlight := None;
      state := Ready;
      panicked := false;
    }

    /** `send` as evidently intended: a compare-exchange claims the slot, so a failing call
        leaves the channel as it was. */
    method SendCorrected(v: T) returns (panicked: bool)
      requires Valid()
      modifies this
      ensures panicked <==> old(state) != Empty
      ensures panicked ==> Model() == old(Model())
      ensures !panicked ==> Model() == PublishStep(ClaimStep(old(Model()), v).next)
    {
      if state != Empty {
        panicked := true;
        return;
      }
      state := Writing;
      inFlight := Some(v);
      msg := Written(v);
      sent := sent + [v];
      inFlight := None;
      state := Ready;
      panicked := false;
    }

    /** `is_ready`. */
    method IsReady() returns (r: bool)
      requires Valid()
      ensures r <==> state == Ready
      ensures r ==> Pending(Model()) == sent && received == []
    {
      ReceivedWasSent(Model());
      r := state == Ready;
    }

    /** `receive`; `None` stands for the panic. */
    method Receive() returns (r: Option<T>)
      requires Valid()
      modifies this
      ensures Model() == ReceiveStep(old(Model())).next
      ensures r.Some? <==> old(state) == Ready
      ensures r.Some? ==> old(sent) == [r.value] && received == [r.value]
    {
      ReceiveSpec(Model());
      if state != Ready || !msg.Written? {
        r := None;
        return;
      }
      state := Reading;
      var v := msg.value;
      msg := MovedOut(v);
      received := received + [v];
      r := Some(v);
    }

    /** `Drop for Channel` as written. It takes the channel exclusively, so no `send` is
        between its two steps. */
    method Drop() returns (d: Disposal<T>)
      requires Valid() && inFlight.None?
      ensures d == DisposalAsWritten(Model())
      ensures d != Nothing <==> sent == []
    {
      if state != Empty {
        d := Nothing;
        return;
      }
      match msg
      case Uninit => d := DropsUninit;
      case Written(v) => d := DropsMessage(v);
      case MovedOut(v) => d := DropsMovedOut(v);
    }

    /** `Drop for Channel` as evidently intended. */
    method DropCorrected() returns (d: Disposal<T>)
      requires Valid()
      ensures d == DisposalCorrected(Model())
      ensures d != Nothing <==> state == Ready
      ensures state != Writing ==> received + DestroyedBy(d) == sent
    {
      DropCorrectedSpec(Model());
      if state == Ready && msg.Written? {
        d := DropsMessage(msg.value);
      } else {
        d := Nothing;
      }
    }
  }

  /** The scenario of the module's test: one message is sent, seen ready, and received; a
      second `send`, which the test leaves commented out, would panic; dropping the channel at
      the end of the scope destroys nothing, the message having been read. */
  method SendThenReceive<T>(v: T) returns (ready: bool, r: Option<T>, secondSendPanics: bool, d: Disposal<T>)
    ensures ready && r == Some(v) && secondSendPanics && d == Nothing
  {
    var chan := new OneShot();
    var p := chan.Send(v);
    ready := chan.IsReady();
    r := chan.Receive();
    secondSendPanics := chan.Send(v);
    d := chan.Drop();
  }

  /** Both corrections together: after a message was sent and a second `send` failed, the
      message is still there to receive, or, if nobody receives it, the drop destroys it. */
  method SendTwiceThenDrop<T>(v: T, w: T) returns (secondSendPanics: bool, d: Disposal<T>)
    ensures secondSendPanics && d == DropsMessage(v)
  {
    var chan := new OneShot();
    var p := chan.SendCorrected(v);
    secondSendPanics := chan.SendCorrected(w);
    d := chan.DropCorrected();
  }
}
