/**
 The writer and reader tasks of a connection in their own form: loops over the
 outbox and the link that update the pending map in place
 (crates/tinybus/src/connection.rs). They are proved against the steps of
 CallBinding.dfy and against what a FIFO writer owes its callers.
 */
module ConnectionTasks {
  import opened Wrappers
  import opened Bus
  import opened CallBinding

  // ---------------------------------------------------------------- what the loops compute

  /** The fate the transport gives each message, in order; a missing fate means the message was sent. */
  function FateOf(fates: seq<Sending>, i: nat): Sending {
    if i < |fates| then fates[i] else Sent
  }

  /** How many messages are taken before the transport fails, counting the one it fails on. */
  function Taken(outbox: seq<Message>, fates: seq<Sending>): (n: nat)
    ensures n <= |outbox|
    decreases |outbox|
  {
    if outbox == [] then 0
    else if FateOf(fates, 0) == Broken then 1
    else 1 + Taken(outbox[1..], Rest(fates))
  }

  function Rest(fates: seq<Sending>): seq<Sending> {
    if fates == [] then [] else fates[1..]
  }

  /** What reaches the wire: every message up to the failure that was not refused, in order. */
  function Survivors(outbox: seq<Message>, fates: seq<Sending>): seq<Message>
    decreases |outbox|
  {
    if outbox == [] || FateOf(fates, 0) == Broken then []
    else (if FateOf(fates, 0) == Sent then [outbox[0]] else []) + Survivors(outbox[1..], Rest(fates))
  }

  /** What is still queued when the writer stops. */
  function Unwritten(outbox: seq<Message>, fates: seq<Sending>): seq<Message>
    decreases |outbox|
  {
    if outbox == [] then []
    else if FateOf(fates, 0) == Broken then outbox[1..]
    else Unwritten(outbox[1..], Rest(fates))
  }

  lemma {:induction false} UnwrittenIsSuffix(outbox: seq<Message>, fates: seq<Sending>)
    ensures Unwritten(outbox, fates) == outbox[Taken(outbox, fates)..]
    decreases |outbox|
  {
    if outbox != [] && FateOf(fates, 0) != Broken {
      UnwrittenIsSuffix(outbox[1..], Rest(fates));
    }
  }

  /** The part of a connection its waiting callers see. */
  datatype Waits = Waits(pending: map<nat, Waiter>, slots: map<nat, Slot>)

  function WaitsOf(c: Connection): Waits {
    Waits(c.pending, c.slots)
  }

  /** refuse_call on that part. */
  function Refused(w: Waits, m: Message): Waits {
    if m.kind == MethodCall && m.serial in w.pending then
      Waits(w.pending - {m.serial},
            w.slots[m.serial := Filled(Delivery(ReplyTo(m, ErrorReply, Opaque(0)), FromWriter))])
    else w
  }

  lemma RefusedIsRefuseCall(c: Connection, m: Message)
    ensures WaitsOf(RefuseCall(c, m)) == Refused(WaitsOf(c), m)
    ensures RefuseCall(c, m) == c.(pending := RefuseCall(c, m).pending, slots := RefuseCall(c, m).slots)
  {
  }

  /** What is left to wait for once the callers of all refused messages were answered. */
  function Refusals(w: Waits, outbox: seq<Message>, fates: seq<Sending>): Waits
    decreases |outbox|
  {
    if outbox == [] || FateOf(fates, 0) == Broken then w
    else Refusals(if FateOf(fates, 0) == RefusedMessage then Refused(w, outbox[0]) else w, outbox[1..], Rest(fates))
  }

  /** The connection after every delivery was dispatched in order. */
  function DispatchAll(c: Connection, deliveries: seq<Delivery>): Connection
    decreases |deliveries|
  {
    if deliveries == [] then c else DispatchAll(Dispatch(c, deliveries[0]), deliveries[1..])
  }

  // ---------------------------------------------------------------- the state the tasks share

  class Link {
    var pending: map<nat, Waiter>
    var slots: map<nat, Slot>
    var serial: nat
    var outbox: seq<Message>
    var writing: Bit
    var reading: Bit

    /** The state as a connection without its callers. */
    ghost function Value(): Connection
      reads this
    {
      Connection(0, serial, pending, slots, map[], map[], map[], outbox, writing, reading)
    }

    constructor (firstSerial: nat)
      ensures Value() == Connection(0, firstSerial, map[], map[], map[], map[], map[], [], Yes, Yes)
    {
      pending, slots, serial, outbox, writing, reading := map[], map[], firstSerial, [], Yes, Yes;
    }

    /** fetch_add and the insertion of the waiter that follows it. */
    method Register(waiter: Waiter) returns (given: nat)
      modifies this
      ensures given == old(serial) && serial == old(serial) + 1
      ensures pending == old(pending)[given := waiter] && slots == old(slots)[given := Empty]
      ensures outbox == old(outbox) && writing == old(writing) && reading == old(reading)
    {
      given := serial;
      serial := serial + 1;
      pending, slots := pending[given := waiter], slots[given := Empty];
    }

    method Complete(target: nat, d: Delivery)
      modifies this
      ensures Value() == Resolve(old(Value()), target, d)
    {
      pending := pending - {target};
      slots := slots[target := Filled(d)];
    }

    method DispatchOne(d: Delivery)
      modifies this
      ensures Value() == Dispatch(old(Value()), d)
    {
      if d.message.kind == MethodReturn || d.message.kind == ErrorReply {
        if d.message.replySerial.Some? {
          var target := d.message.replySerial.value;
          if target in pending && Accepts(pending[target], d.message, true) {
            Complete(target, d);
          }
        }
      }
    }

    method RefuseOne(m: Message)
      modifies this
      ensures Value() == RefuseCall(old(Value()), m)
    {
      if m.kind == MethodCall && m.serial in pending {
        Complete(m.serial, Delivery(ReplyTo(m, ErrorReply, Opaque(0)), FromWriter));
      }
    }

    /** The reader task: dispatch until the link ends, then release everybody who still waits. */
    method DispatchLoop(deliveries: seq<Delivery>)
      modifies this
      ensures Value() == ReaderExit(DispatchAll(old(Value()), deliveries))
      ensures pending == map[]
    {
      var i := 0;
      while i < |deliveries|
        invariant i <= |deliveries|
        invariant DispatchAll(Value(), deliveries[i..]) == DispatchAll(old(Value()), deliveries)
      {
        assert deliveries[i..][0] == deliveries[i] && deliveries[i..][1..] == deliveries[i + 1..];
        DispatchOne(deliveries[i]);
        i := i + 1;
      }
      slots := map s | s in slots :: if s in pending then Closed else slots[s];
      reading, pending := No, map[];
    }

    /** One message leaves the outbox with the fate its transport gives it. */
    method WriteOne(fate: Sending)
      requires outbox != []
      modifies this
      ensures outbox == old(outbox)[1..] && serial == old(serial) && reading == old(reading)
      ensures WaitsOf(Value()) ==
                (if fate == RefusedMessage then Refused(WaitsOf(old(Value())), old(outbox)[0])
                 else WaitsOf(old(Value())))
      ensures writing == (if fate == Broken then No else old(writing))
    {
      var message := outbox[0];
      outbox := outbox[1..];
      match fate {
        case Sent =>
        case RefusedMessage =>
          RefusedIsRefuseCall(Value(), message);
          RefuseOne(message);
        case Broken => writing := No;
      }
    }

    /**
     The writer task. A refused message is dropped and its caller answered; the
     messages behind it are still written, in order, until the transport fails.
     */
    method WriterLoop(fates: seq<Sending>) returns (sent: seq<Message>)
      modifies this
      ensures sent == Survivors(old(outbox), fates)
      ensures outbox == Unwritten(old(outbox), fates)
      ensures WaitsOf(Value()) == Refusals(WaitsOf(old(Value())), old(outbox), fates)
      ensures serial == old(serial) && reading == old(reading)
      ensures writing == (if Breaks(old(outbox), fates) then No else old(writing))
    {
      sent := [];
      var rest := fates;
      ghost var before := outbox;
      while outbox != []
        invariant sent <= Survivors(before, fates)
        invariant Unwritten(outbox, rest) == Unwritten(before, fates)
        invariant Survivors(outbox, rest) == Survivors(before, fates)[|sent|..]
        invariant Breaks(outbox, rest) == Breaks(before, fates)
        invariant serial == old(serial) && reading == old(reading) && writing == old(writing)
        invariant Refusals(WaitsOf(Value()), outbox, rest) == Refusals(WaitsOf(old(Value())), before, fates)
        decreases |outbox|
      {
        var (message, fate) := (outbox[0], FateOf(rest, 0));
        WriteOne(fate);
        if fate == Sent {
          sent := sent + [message];
        }
        if fate == Broken {
          return;
        }
        rest := Rest(rest);
      }
    }
  }

  /** Does the transport fail on some message? */
  predicate Breaks(outbox: seq<Message>, fates: seq<Sending>)
    decreases |outbox|
  {
    outbox != [] && (FateOf(fates, 0) == Broken || Breaks(outbox[1..], Rest(fates)))
  }

  // ---------------------------------------------------------------- what the writer owes its callers

  /** How many of the first `n` messages are sent. */
  function CountSent(fates: seq<Sending>, n: nat): nat {
    if n == 0 then 0 else (if FateOf(fates, 0) == Sent then 1 else 0) + CountSent(Rest(fates), n - 1)
  }

  /**
   Up to the failure of the transport, if there is one, exactly the refused messages
   are missing from the wire: the i-th message, if it is sent, is on the wire right
   after the sent ones before it, and nothing else is.
   */
  lemma {:induction false} RefusalSparesTheRest(outbox: seq<Message>, fates: seq<Sending>, i: nat)
    requires i < Taken(outbox, fates)
    ensures |Survivors(outbox, fates)| == CountSent(fates, Taken(outbox, fates))
    ensures FateOf(fates, i) == Sent ==>
              CountSent(fates, i) < |Survivors(outbox, fates)|
              && Survivors(outbox, fates)[CountSent(fates, i)] == outbox[i]
    decreases |outbox|
  {
    if FateOf(fates, 0) == Broken {
      assert Taken(outbox, fates) == 1;
    } else if i == 0 {
      if Taken(outbox[1..], Rest(fates)) > 0 {
        RefusalSparesTheRest(outbox[1..], Rest(fates), 0);
      }
    } else {
      assert FateOf(Rest(fates), i - 1) == FateOf(fates, i);
      RefusalSparesTheRest(outbox[1..], Rest(fates), i - 1);
    }
  }

  /** All of the outbox is taken unless the transport fails; then the last one taken is the one it failed on. */
  lemma {:induction false} TakenUnlessBroken(outbox: seq<Message>, fates: seq<Sending>)
    ensures !Breaks(outbox, fates) ==> Taken(outbox, fates) == |outbox|
    ensures Breaks(outbox, fates) ==>
              Taken(outbox, fates) > 0 && FateOf(fates, Taken(outbox, fates) - 1) == Broken
    decreases |outbox|
  {
    if outbox != [] && FateOf(fates, 0) != Broken {
      TakenUnlessBroken(outbox[1..], Rest(fates));
      var n := Taken(outbox[1..], Rest(fates));
      if n > 0 {
        assert FateOf(Rest(fates), n - 1) == FateOf(fates, n);
      }
    }
  }

  /** The position of every written message in the outbox, in order. */
  ghost predicate InOrder(sent: seq<Message>, outbox: seq<Message>)
    decreases |outbox|
  {
    if outbox == [] then sent == []
    else if sent != [] && sent[0] == outbox[0] && InOrder(sent[1..], outbox[1..]) then true
    else InOrder(sent, outbox[1..])
  }

  /** Nothing is written that was not queued, and the order of the queue is kept. */
  lemma {:induction false} WriterKeepsOrder(outbox: seq<Message>, fates: seq<Sending>)
    ensures InOrder(Survivors(outbox, fates), outbox)
    decreases |outbox|
  {
    if outbox == [] {
    } else if FateOf(fates, 0) == Broken {
      NothingIsInOrder(outbox);
    } else {
      WriterKeepsOrder(outbox[1..], Rest(fates));
      var sent := Survivors(outbox, fates);
      if FateOf(fates, 0) == Sent {
        assert sent[1..] == Survivors(outbox[1..], Rest(fates));
      } else {
        assert sent == Survivors(outbox[1..], Rest(fates));
      }
    }
  }

  lemma {:induction false} NothingIsInOrder(outbox: seq<Message>)
    ensures InOrder([], outbox)
    decreases |outbox|
  {
    if outbox != [] { NothingIsInOrder(outbox[1..]); }
  }

  /** Every waiting caller whose call the transport refused is answered at once, and leaves the map. */
  lemma {:induction false} RefusedCallersAnswered(w: Waits, outbox: seq<Message>, fates: seq<Sending>, i: nat)
    requires i < |outbox| && i < Taken(outbox, fates) && FateOf(fates, i) == RefusedMessage
    requires outbox[i].kind == MethodCall && outbox[i].serial in w.pending
    ensures var after := Refusals(w, outbox, fates);
      && outbox[i].serial !in after.pending
      && outbox[i].serial in after.slots && after.slots[outbox[i].serial].Filled?
      && after.slots[outbox[i].serial].delivery.message.kind == ErrorReply
    decreases |outbox|
  {
    var next := if FateOf(fates, 0) == RefusedMessage then Refused(w, outbox[0]) else w;
    var serial := outbox[i].serial;
    if serial !in next.pending {
      RefusalsKeepAnswer(next, outbox[1..], Rest(fates), serial);
    } else {
      assert i > 0;
      assert FateOf(Rest(fates), i - 1) == FateOf(fates, i);
      RefusedCallersAnswered(next, outbox[1..], Rest(fates), i - 1);
    }
  }

  lemma {:induction false} RefusalsKeepAnswer(w: Waits, outbox: seq<Message>, fates: seq<Sending>, serial: nat)
    requires serial !in w.pending
    ensures serial !in Refusals(w, outbox, fates).pending
    ensures serial in w.slots ==>
              serial in Refusals(w, outbox, fates).slots && Refusals(w, outbox, fates).slots[serial] == w.slots[serial]
    decreases |outbox|
  {
    if outbox != [] && FateOf(fates, 0) != Broken {
      var next := if FateOf(fates, 0) == RefusedMessage then Refused(w, outbox[0]) else w;
      RefusalsKeepAnswer(next, outbox[1..], Rest(fates), serial);
    }
  }
}
