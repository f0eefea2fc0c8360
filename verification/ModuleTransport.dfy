/**
 The bounded inbound queue of a module and its single reader
 (crates/tinybus-module/src/lib.rs). Deliveries, routing flips, close calls and
 the reader interleave; the queue is first in, first out, every frame carries the
 routing its own delivery sampled, and close never loses the reader.
 */
module ModuleTransport {
  import opened Wrappers

  const MODULE_QUEUE_CAPACITY: nat := 256

  const TB_OK: int := 0
  const TB_BACKPRESSURE: int := -1
  const TB_CLOSED: int := -2

  /** A frame: its bytes, and whether the host routed through the broker when its delivery asked. */
  datatype Frame = Frame(bytes: int, brokered: Bit)

  /**
   Where the reader is inside recv. `seen` is the version of the close signal it
   has observed; from Locked to Stored it holds the receiver mutex.
   */
  datatype Reader =
    | Outside
    | Subscribed(seen: nat)
    | Locked(seen: nat)
    | Selecting(seen: nat)
    | Got(frame: Frame)
    | Stored(frame: Frame)
    | Ended

  /** What the connection got: the frame and the provenance it sampled right after recv. */
  datatype Sample = Sample(frame: Frame, brokered: Bit)

  /**
   `delivering` are the deliveries between their routing sample and their try_send.
   The last five fields are history: the frame each delivery built, the accepted
   frames with the delivery each came from, the received and the sampled ones.
   */
  datatype State = State(
    queue: seq<Frame>,
    closing: Bit,
    version: nat,
    channelClosed: Bit,
    routed: Bit,
    provenance: Bit,
    reader: Reader,
    closers: nat,
    delivering: set<nat>,
    built: map<nat, Frame>,
    accepted: seq<Frame>,
    origins: seq<nat>,
    taken: seq<Frame>,
    sampled: seq<Sample>)

  const INITIAL := State([], No, 0, No, No, No, Outside, 0, {}, map[], [], [], [], [])

  // ---------------------------------------------------------------- the regions

  /** try_send into the bounded channel. */
  function DeliverCode(queue: seq<Frame>, channelClosed: Bit): int {
    if channelClosed.Yes? then TB_CLOSED
    else if |queue| >= MODULE_QUEUE_CAPACITY then TB_BACKPRESSURE
    else TB_OK
  }

  predicate HoldsReceiver(reader: Reader) {
    reader.Locked? || reader.Selecting? || reader.Got? || reader.Stored?
  }

  datatype Event =
    | SampleRouting(id: nat, bytes: int) // first half of deliver: ask the host, copy the bytes
    | TrySend(id: nat)                   // second half
    | Route(brokered: Bit)
    | SignalClose                        // first half of close: send_replace(true)
    | LockAndClose                       // second half: take the receiver and close it
    | Recv(malformed: bool)

  /** One step of the reader; a reader that cannot move stays parked in its select. */
  function Read(s: State, malformed: bool): State {
    match s.reader
    case Outside => s.(reader := Subscribed(s.version))
    case Subscribed(seen) => s.(reader := Locked(seen))
    case Locked(_) =>
      // borrow_and_update at the head of the loop
      s.(reader := Selecting(s.version), channelClosed := if s.closing.Yes? then Yes else s.channelClosed)
    case Selecting(seen) =>
      if s.version > seen then s.(reader := Locked(s.version), channelClosed := Yes)
      else if s.queue != [] then
        s.(reader := Got(s.queue[0]), queue := s.queue[1..], taken := s.taken + [s.queue[0]])
      else if s.channelClosed.Yes? then s.(reader := Ended)
      else s
    case Got(frame) =>
      if malformed then s.(reader := Ended)  // the parse error ends the connection's reader
      else s.(reader := Stored(frame), provenance := frame.brokered)
    case Stored(frame) =>
      // recv returns and the connection samples at once
      s.(reader := Outside, sampled := s.sampled + [Sample(frame, s.provenance)])
    case Ended => s
  }

  function Next(s: State, e: Event): State {
    match e
    case SampleRouting(id, bytes) =>
      if id in s.built then s
      else s.(delivering := s.delivering + {id}, built := s.built[id := Frame(bytes, s.routed)])
    case TrySend(id) =>
      if id !in s.delivering || id !in s.built then s
      else if DeliverCode(s.queue, s.channelClosed) == TB_OK then
        s.(delivering := s.delivering - {id}, queue := s.queue + [s.built[id]],
           accepted := s.accepted + [s.built[id]], origins := s.origins + [id])
      else s.(delivering := s.delivering - {id})
    case Route(brokered) => s.(routed := brokered)
    case SignalClose => s.(closing := Yes, version := s.version + 1, closers := s.closers + 1)
    case LockAndClose =>
      if s.closers > 0 && !HoldsReceiver(s.reader) then s.(closers := s.closers - 1, channelClosed := Yes) else s
    case Recv(malformed) => Read(s, malformed)
  }

  function Run(s: State, events: seq<Event>): State
    decreases |events|
  {
    if events == [] then s else Run(Next(s, events[0]), events[1..])
  }

  ghost predicate Reachable(s: State) {
    exists events: seq<Event> :: s == Run(INITIAL, events)
  }

  // ---------------------------------------------------------------- the invariant

  /** What was sampled, as frames. */
  function Frames(samples: seq<Sample>): seq<Frame> {
    if samples == [] then [] else Frames(samples[..|samples| - 1]) + [samples[|samples| - 1].frame]
  }

  /** The frame popped but not yet sampled. */
  function InHand(reader: Reader): seq<Frame> {
    match reader
    case Got(frame) => [frame]
    case Stored(frame) => [frame]
    case _ => []
  }

  predicate SeenFits(s: State) {
    match s.reader
    case Subscribed(seen) => seen <= s.version
    case Locked(seen) => seen <= s.version
    case Selecting(seen) => seen <= s.version
    case _ => true
  }

  /** Every accepted frame is the one its own delivery built, and no delivery is accepted twice. */
  ghost predicate OriginsFit(s: State) {
    && |s.origins| == |s.accepted|
    && s.delivering <= s.built.Keys
    && (forall i :: 0 <= i < |s.origins| ==> s.origins[i] in s.built && s.built[s.origins[i]] == s.accepted[i])
    && (forall i :: 0 <= i < |s.origins| ==> s.origins[i] !in s.delivering)
    && (forall i, j :: 0 <= i < j < |s.origins| ==> s.origins[i] != s.origins[j])
  }

  ghost predicate Valid(s: State) {
    && OriginsFit(s)
    && s.accepted == s.taken + s.queue
    && |s.queue| <= MODULE_QUEUE_CAPACITY
    && SeenFits(s)
    && (s.closing.Yes? <==> s.version > 0)
    && (s.channelClosed.Yes? ==> s.closing.Yes?)
    && s.closers <= s.version
    && (s.reader.Selecting? && s.closing.Yes? ==> s.version > s.reader.seen || s.channelClosed.Yes?)
    && (s.reader.Stored? ==> s.provenance == s.reader.frame.brokered)
    && (s.reader != Ended ==> s.taken == Frames(s.sampled) + InHand(s.reader))
    && Frames(s.sampled) <= s.taken
    && (forall i :: 0 <= i < |s.sampled| ==> s.sampled[i].brokered == s.sampled[i].frame.brokered)
  }

  lemma NextValid(s: State, e: Event)
    requires Valid(s)
    ensures Valid(Next(s, e))
  {
    match e
    case TrySend(id) => SendValid(s, id);
    case Recv(malformed) => ReadValid(s, malformed);
    case _ =>
  }

  lemma SendValid(s: State, id: nat)
    requires Valid(s)
    ensures Valid(Next(s, TrySend(id)))
  {
    if id in s.delivering {
      assert s.taken + (s.queue + [s.built[id]]) == (s.taken + s.queue) + [s.built[id]];
    }
  }

  lemma ReadValid(s: State, malformed: bool)
    requires Valid(s)
    ensures Valid(Read(s, malformed))
  {
    ReadKeepsFrames(s, malformed);
    ReadKeepsOrigins(s, malformed);
  }

  lemma ReadKeepsOrigins(s: State, malformed: bool)
    requires Valid(s)
    ensures OriginsFit(Read(s, malformed))
    ensures forall i :: 0 <= i < |Read(s, malformed).sampled| ==>
              Read(s, malformed).sampled[i].brokered == Read(s, malformed).sampled[i].frame.brokered
  {
  }

  /** The reader moves frames from the queue to its hand and from its hand to the samples. */
  lemma ReadKeepsFrames(s: State, malformed: bool)
    requires Valid(s)
    ensures var s' := Read(s, malformed);
      && s'.accepted == s'.taken + s'.queue
      && (s'.reader != Ended ==> s'.taken == Frames(s'.sampled) + InHand(s'.reader))
      && Frames(s'.sampled) <= s'.taken
  {
    if s.reader.Selecting? && s.queue != [] {
      assert (s.taken + [s.queue[0]]) + s.queue[1..] == s.taken + s.queue;
    } else if s.reader.Stored? {
      assert Read(s, malformed).sampled[..|s.sampled|] == s.sampled;
    }
  }

  lemma {:induction false} RunValid(s: State, events: seq<Event>)
    requires Valid(s)
    ensures Valid(Run(s, events))
    decreases |events|
  {
    if events != [] {
      NextValid(s, events[0]);
      RunValid(Next(s, events[0]), events[1..]);
    }
  }

  lemma ReachableValid(s: State)
    requires Reachable(s)
    ensures Valid(s)
  {
    var events: seq<Event> :| s == Run(INITIAL, events);
    RunValid(INITIAL, events);
  }

  // ---------------------------------------------------------------- what the transport promises

  /** Received frames are a prefix of the accepted ones, in order; at most 256 wait in between. */
  lemma RefinesFifo(s: State)
    requires Reachable(s)
    ensures Frames(s.sampled) <= s.accepted
    ensures s.taken <= s.accepted && s.accepted[|s.taken|..] == s.queue
    ensures |s.queue| <= MODULE_QUEUE_CAPACITY
  {
    ReachableValid(s);
  }

  /**
   The provenance the connection samples is the routing that the delivery of that
   very frame had sampled, whatever was queued, routed or received in between.
   */
  lemma ProvenanceIsPerFrame(s: State, i: nat)
    requires Reachable(s) && i < |s.sampled|
    ensures i < |s.origins| && s.origins[i] in s.built
    ensures s.sampled[i].frame == s.built[s.origins[i]] && s.sampled[i].brokered == s.built[s.origins[i]].brokered
    ensures forall j :: 0 <= j < |s.origins| && j != i ==> s.origins[j] != s.origins[i]
  {
    ReachableValid(s);
    FramesAt(s.sampled, i);
  }

  lemma {:induction false} FramesAt(samples: seq<Sample>, i: nat)
    requires i < |samples|
    ensures |Frames(samples)| == |samples| && Frames(samples)[i] == samples[i].frame
    decreases |samples|
  {
    if i < |samples| - 1 {
      FramesAt(samples[..|samples| - 1], i);
    } else if |samples| > 1 {
      FramesAt(samples[..|samples| - 1], 0);
    }
  }

  // ---------------------------------------------------------------- routing at delivery and at enqueue

  /** The host's routing after `events`. */
  function RoutingAfter(routed: Bit, events: seq<Event>): Bit
    decreases |events|
  {
    if events == [] then routed
    else RoutingAfter(if events[0].Route? then events[0].brokered else routed, events[1..])
  }

  lemma {:induction false} DeliveryWaits(s: State, id: nat, between: seq<Event>)
    requires id in s.delivering && id in s.built && TrySend(id) !in between
    ensures id in Run(s, between).delivering && id in Run(s, between).built
    ensures Run(s, between).built[id] == s.built[id]
    ensures Run(s, between).routed == RoutingAfter(s.routed, between)
    decreases |between|
  {
    if between != [] {
      assert between[0] in between;
      DeliveryWaits(Next(s, between[0]), id, between[1..]);
    }
  }

  /** The state when delivery `id` is about to call try_send, `between` having happened since its sample. */
  function AboutToSend(s: State, id: nat, bytes: int, between: seq<Event>): State {
    Run(Next(s, SampleRouting(id, bytes)), between)
  }

  /**
   An accepted frame carries the routing of the moment its delivery sampled it.
   That is the routing of the moment it is queued if and only if the flips in
   between cancel out.
   */
  lemma QueuedRoutingIsSampled(s: State, id: nat, bytes: int, between: seq<Event>)
    requires id !in s.built && TrySend(id) !in between
    ensures var before := AboutToSend(s, id, bytes, between);
            var after := Next(before, TrySend(id));
            if DeliverCode(before.queue, before.channelClosed) == TB_OK then
              && after.accepted == before.accepted + [Frame(bytes, s.routed)]
              && (s.routed == after.routed <==> RoutingAfter(s.routed, between) == s.routed)
            else after.accepted == before.accepted
  {
    DeliveryWaits(Next(s, SampleRouting(id, bytes)), id, between);
  }

  /** The two can differ: a flip between the halves of a delivery queues a frame with the earlier routing. */
  lemma QueuedRoutingCanBeStale(bytes: int)
    ensures var s := Run(INITIAL, [SampleRouting(0, bytes), Route(Yes), TrySend(0)]);
            s.queue == [Frame(bytes, No)] && s.routed.Yes?
  {
    var s1 := Next(INITIAL, SampleRouting(0, bytes));
    var s2 := Next(s1, Route(Yes));
    assert [SampleRouting(0, bytes), Route(Yes), TrySend(0)][1..] == [Route(Yes), TrySend(0)];
    assert [Route(Yes), TrySend(0)][1..] == [TrySend(0)];
    assert [TrySend(0)][1..] == [];
    assert Run(s2, [TrySend(0)]) == Run(Next(s2, TrySend(0)), []);
  }

  // ---------------------------------------------------------------- close

  /** Once close was signalled the reader is never parked: some step of its own is always enabled. */
  lemma NoWakeupLostToClose(s: State, malformed: bool)
    requires Reachable(s) && s.closing.Yes? && s.reader != Ended
    ensures Read(s, malformed) != s
  {
    ReachableValid(s);
    if s.reader.Selecting? && s.queue != [] {
      assert |s.queue[1..]| < |s.queue|;
    }
  }

  /** How many more steps the reader takes after the channel is closed, if close is not signalled again. */
  function StepsLeft(s: State): nat {
    match s.reader
    case Ended => 0
    case Selecting(seen) => 6 * |s.queue| + if seen < s.version then 3 else 1
    case Locked(_) => 6 * |s.queue| + 2
    case Subscribed(_) => 6 * |s.queue| + 3
    case Outside => 6 * |s.queue| + 4
    case Stored(_) => 6 * |s.queue| + 5
    case Got(_) => 6 * |s.queue| + 6
  }

  /** The reader steps and the close signals of a run. */
  function Receives(events: seq<Event>): nat {
    if events == [] then 0 else (if events[0].Recv? then 1 else 0) + Receives(events[1..])
  }

  function Signals(events: seq<Event>): nat {
    if events == [] then 0 else (if events[0].SignalClose? then 1 else 0) + Signals(events[1..])
  }

  /** The reader has ended and the connection got every frame that was ever accepted. */
  predicate Drained(s: State) {
    s.reader == Ended && s.channelClosed.Yes? && Frames(s.sampled) == s.accepted
  }

  /** How many steps the reader takes before the channel is closed, once close is signalled. */
  function StepsToClosing(reader: Reader): nat {
    match reader
    case Got(_) => 5
    case Stored(_) => 4
    case Outside => 3
    case Subscribed(_) => 2
    case _ => 1
  }

  /** How many more steps the reader takes once close is signalled; until the channel is closed the queue may fill. */
  function StepsToEnd(s: State): nat {
    if s.channelClosed.Yes? then StepsLeft(s)
    else StepsToClosing(s.reader) + 6 * MODULE_QUEUE_CAPACITY + 4
  }

  lemma DrainStep(s: State, e: Event)
    requires Valid(s) && s.closing.Yes? && s.reader != Ended && e != Recv(true)
    ensures var next := Next(s, e);
      && next.closing.Yes? && (s.channelClosed.Yes? ==> next.channelClosed.Yes? && next.accepted == s.accepted)
      && (if next.reader == Ended then Drained(next)
          else StepsToEnd(next) + (if e.Recv? then 1 else 0)
                 <= StepsToEnd(s) + if e.SignalClose? then 2 else 0)
  {
  }

  lemma {:induction false} StaysDrained(s: State, events: seq<Event>)
    requires Drained(s)
    ensures Drained(Run(s, events)) && Run(s, events).accepted == s.accepted
    decreases |events|
  {
    if events != [] {
      StaysDrained(Next(s, events[0]), events[1..]);
    }
  }

  lemma {:induction false} RunDrains(s: State, events: seq<Event>)
    requires Valid(s) && s.closing.Yes? && s.reader != Ended && Recv(true) !in events
    requires Receives(events) >= StepsToEnd(s) + 2 * Signals(events)
    ensures Drained(Run(s, events))
    ensures s.channelClosed.Yes? ==> Run(s, events).accepted == s.accepted
    decreases |events|
  {
    if events != [] {
      var next := Next(s, events[0]);
      NextValid(s, events[0]);
      DrainStep(s, events[0]);
      if next.reader == Ended {
        StaysDrained(next, events[1..]);
      } else {
        RunDrains(next, events[1..]);
      }
    }
  }

  /**
   Once close is signalled the reader gets to the end through every accepted frame,
   whatever deliveries, routing flips and close calls interleave, and although close
   itself may be waiting for the receiver: it needs StepsToEnd steps of its own and
   two more for each new close signal. A closed channel accepts nothing more.
   */
  lemma CloseDrains(s: State, events: seq<Event>)
    requires Reachable(s) && s.closing.Yes? && s.reader != Ended && Recv(true) !in events
    requires Receives(events) >= StepsToEnd(s) + 2 * Signals(events)
    ensures var last := Run(s, events);
            last.reader == Ended && last.channelClosed.Yes? && Frames(last.sampled) == last.accepted
    ensures s.channelClosed.Yes? ==> Run(s, events).accepted == s.accepted
  {
    ReachableValid(s);
    RunDrains(s, events);
  }

  // ---------------------------------------------------------------- the transport in place

  /** What one poll of recv yields. */
  datatype Poll = Item(frame: Frame) | Malformed | End | Pending

  /** The fields of the transport. */
  datatype Fields = Fields(queue: seq<Frame>, closing: Bit, version: nat, channelClosed: Bit, provenance: Bit)

  function Shared(s: State): Fields {
    Fields(s.queue, s.closing, s.version, s.channelClosed, s.provenance)
  }

  /** The transport while nobody is inside it. */
  function Idle(f: Fields, routed: Bit): State {
    State(f.queue, f.closing, f.version, f.channelClosed, routed, f.provenance, Outside, 0, {}, map[], [], [], [], [])
  }

  /** recv undisturbed: up to six steps of the reader bring it back, to the end, or to rest in its select. */
  function Polled(f: Fields, malformed: bool): State {
    var selecting := Read(Read(Read(Idle(f, No), malformed), malformed), malformed);
    Read(Read(Read(selecting, malformed), malformed), malformed)
  }

  /** The transport's fields, updated in place by deliver, close and the reader. */
  class Inbound {
    var queue: seq<Frame>
    var closing: Bit
    var version: nat
    var channelClosed: Bit
    var provenance: Bit

    constructor ()
      ensures Now() == Shared(INITIAL)
    {
      queue, closing, version, channelClosed, provenance := [], No, 0, No, No;
    }

    function Now(): Fields
      reads this
    {
      Fields(queue, closing, version, channelClosed, provenance)
    }

    /** deliver undisturbed, with the host's answer `routed`. */
    method Deliver(bytes: int, routed: Bit) returns (code: int)
      modifies this`queue
      ensures code == DeliverCode(old(queue), channelClosed)
      ensures Now() == Shared(AboutToSend(Idle(old(Now()), routed), 0, bytes, [TrySend(0)]))
      ensures queue == (if code == TB_OK then old(queue) + [Frame(bytes, routed)] else old(queue))
    {
      if channelClosed.Yes? {
        return TB_CLOSED;
      }
      if |queue| >= MODULE_QUEUE_CAPACITY {
        return TB_BACKPRESSURE;
      }
      queue := queue + [Frame(bytes, routed)];
      return TB_OK;
    }

    /** close undisturbed. */
    method Close()
      modifies this`closing, this`version, this`channelClosed
      ensures Now() == Shared(Next(Next(Idle(old(Now()), No), SignalClose), LockAndClose))
    {
      closing, version := Yes, version + 1;
      channelClosed := Yes;
    }

    /**
     recv, polled once: a close intent that is already visible closes the channel
     before anything is awaited; a frame that does not parse is consumed and its
     provenance is never stored.
     */
    method Recv(malformed: bool) returns (polled: Poll)
      modifies this`queue, this`channelClosed, this`provenance
      ensures Now() == Shared(Polled(old(Now()), malformed))
      ensures polled == (if old(queue) == [] then (if channelClosed.Yes? then End else Pending)
                         else if malformed then Malformed else Item(old(queue)[0]))
      ensures Polled(old(Now()), malformed).reader == Ended <==> polled.End? || polled.Malformed?
    {
      if closing.Yes? {
        channelClosed := Yes;
      }
      if queue != [] {
        var frame := queue[0];
        queue := queue[1..];
        if malformed {
          return Malformed;
        }
        provenance := frame.brokered;
        return Item(frame);
      }
      return if channelClosed.Yes? then End else Pending;
    }
  }
}
