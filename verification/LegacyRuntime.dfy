/**
 The lifecycle of a module without terminal hooks: shutdown, reinitialization,
 delivery and the disposal after a failed setup
 (crates/tinybus-module/src/lib.rs). Calls on any number of threads interleave;
 the reinitialization slot's mutex is held across the callback.
 */
module LegacyRuntime {
  import opened Wrappers

  const TB_OK: int := 0
  const TB_CLOSED: int := -2
  const TB_PANICKED: int := -3

  /** Where a call is. Locked and Running positions hold the slot's mutex. */
  datatype Pc =
    | Rest
    | ShutdownLocked | ShutdownInbound | ShutdownRuntime | ShutdownDone(code: int)
    | ReinitLocked | Running | ReinitDone(code: int)
    | DeliverEntered | DeliverSending(hasSender: Bit) | DeliverDone(accepted: Bit)
    | DisposeLocked | Disposed | FaultReported

  /** `oks` counts the shutdowns that found the runtime; `everTaken` records that the callback was disposed. */
  datatype State = State(
    lock: Option<nat>,
    callback: Bit,
    inbound: Bit,
    runtime: Bit,
    threads: map<nat, Pc>,
    oks: nat,
    everTaken: Bit)

  function At(s: State, t: nat): Pc {
    if t in s.threads then s.threads[t] else Rest
  }

  function Initial(callback: Bit): State {
    State(None, callback, Yes, Yes, map[], 0, No)
  }

  datatype Work = Shutdown | Reinitialize | Deliver | DisposeFailedSetup

  /** What the callback or the queue does. */
  datatype Choice = Go(work: Work) | Returns(code: int) | Panics | QueueTakes | QueueRefuses

  function Move(s: State, t: nat, pc: Pc): State {
    s.(threads := s.threads[t := pc])
  }

  function Acquire(s: State, t: nat, pc: Pc): State {
    if s.lock == None then Move(s.(lock := Some(t)), t, pc) else s
  }

  /** One region of thread `t`; a thread that must wait for the mutex changes nothing. */
  function Step(s: State, t: nat, ch: Choice): State {
    match At(s, t)
    case Rest =>
      if !ch.Go? then s
      else (match ch.work
        case Shutdown => Acquire(s, t, ShutdownLocked)
        case Reinitialize => Acquire(s, t, ReinitLocked)
        case Deliver => Move(s, t, DeliverEntered)
        case DisposeFailedSetup => Acquire(s, t, DisposeLocked))
    // shutdown: dispose the callback, then the inbound sender, then the runtime; a callback that
    // panics while it is dropped frees the mutex and ends the call there
    case ShutdownLocked =>
      Move(s.(callback := No, everTaken := Yes, lock := None), t,
           if ch == Panics && s.callback.Yes? then ShutdownDone(TB_PANICKED) else ShutdownInbound)
    case ShutdownInbound => Move(s.(inbound := No), t, ShutdownRuntime)
    case ShutdownRuntime =>
      if s.runtime.Yes? then Move(s.(runtime := No, oks := s.oks + 1), t, ShutdownDone(TB_OK))
      else Move(s, t, ShutdownDone(TB_CLOSED))
    // reinitialize: the callback runs under the mutex; a panic is caught outside it
    case ReinitLocked =>
      if s.callback.No? then Move(s.(lock := None), t, ReinitDone(TB_CLOSED)) else Move(s, t, Running)
    case Running =>
      if ch.Returns? then Move(s.(lock := None), t, ReinitDone(ch.code))
      else if ch == Panics then Move(s.(lock := None), t, ReinitDone(TB_PANICKED))
      else s
    // deliver: clone the sender, then try to queue
    case DeliverEntered => Move(s, t, DeliverSending(s.inbound))
    case DeliverSending(hasSender) =>
      Move(s, t, DeliverDone(if hasSender.Yes? && ch == QueueTakes then Yes else No))
    // failed setup: dispose the callback under the mutex, then report the fault
    case DisposeLocked => Move(s.(callback := No, everTaken := Yes, lock := None), t, Disposed)
    case Disposed => Move(s, t, FaultReported)
    case _ => s
  }

  datatype Event = Event(thread: nat, choice: Choice)

  function Run(s: State, events: seq<Event>): State
    decreases |events|
  {
    if events == [] then s else Run(Step(s, events[0].thread, events[0].choice), events[1..])
  }

  ghost predicate Reachable(s: State) {
    exists callback: Bit, events: seq<Event> :: s == Run(Initial(callback), events)
  }

  ghost predicate Follows(s: State, later: State) {
    exists events: seq<Event> :: later == Run(s, events)
  }

  // ---------------------------------------------------------------- the invariant

  predicate HoldsMutex(pc: Pc) {
    pc.ShutdownLocked? || pc.ReinitLocked? || pc.Running? || pc.DisposeLocked?
  }

  predicate ThreadFits(s: State, t: nat, pc: Pc) {
    && (HoldsMutex(pc) <==> s.lock == Some(t))
    && (pc.Running? ==> s.callback.Yes?)
    && (pc.ShutdownInbound? || pc.ShutdownRuntime? || pc.ShutdownDone? || pc.Disposed? || pc.FaultReported? ==>
          s.callback.No? && s.everTaken.Yes?)
    && (PastInbound(pc) ==> s.inbound.No?)
    && (pc.ShutdownDone? ==> pc.code in {TB_OK, TB_CLOSED, TB_PANICKED})
    && (pc.ShutdownDone? && pc.code != TB_PANICKED ==> s.runtime.No?)
  }

  /** A shutdown that has dropped the sender. */
  predicate PastInbound(pc: Pc) {
    pc.ShutdownRuntime? || (pc.ShutdownDone? && pc.code != TB_PANICKED)
  }

  ghost predicate Valid(s: State) {
    && (forall t: nat :: ThreadFits(s, t, At(s, t)))
    && s.oks == (if s.runtime.Yes? then 0 else 1)
    && (s.everTaken.Yes? ==> s.callback.No?)
    && (s.inbound.No? ==> exists u: nat :: PastInbound(At(s, u)))
  }

  lemma OwnStep(s: State, t: nat, ch: Choice)
    requires Valid(s)
    ensures ThreadFits(Step(s, t, ch), t, At(Step(s, t, ch), t))
  {
    assert ThreadFits(s, t, At(s, t));
  }

  lemma OtherStep(s: State, t: nat, ch: Choice, u: nat)
    requires Valid(s) && u != t
    ensures At(Step(s, t, ch), u) == At(s, u) && ThreadFits(Step(s, t, ch), u, At(s, u))
  {
    assert ThreadFits(s, t, At(s, t)) && ThreadFits(s, u, At(s, u));
  }

  lemma StepValid(s: State, t: nat, ch: Choice)
    requires Valid(s)
    ensures Valid(Step(s, t, ch))
    ensures s.oks <= Step(s, t, ch).oks
    ensures s.everTaken.Yes? ==> Step(s, t, ch).everTaken.Yes?
    ensures s.inbound.No? ==> Step(s, t, ch).inbound.No?
  {
    var s' := Step(s, t, ch);
    assert ThreadFits(s, t, At(s, t));
    forall u: nat ensures ThreadFits(s', u, At(s', u)) {
      if u == t { OwnStep(s, t, ch); } else { OtherStep(s, t, ch, u); }
    }
    if s.inbound.No? {
      var u: nat :| PastInbound(At(s, u));
      assert PastInbound(At(s', u));
    } else if s'.inbound.No? {
      assert PastInbound(At(s', t));
    }
  }

  lemma {:induction false} RunValid(s: State, events: seq<Event>)
    requires Valid(s)
    ensures Valid(Run(s, events)) && s.oks <= Run(s, events).oks
    ensures s.everTaken.Yes? ==> Run(s, events).everTaken.Yes?
    ensures s.inbound.No? ==> Run(s, events).inbound.No?
    decreases |events|
  {
    if events != [] {
      StepValid(s, events[0].thread, events[0].choice);
      RunValid(Step(s, events[0].thread, events[0].choice), events[1..]);
    }
  }

  lemma ReachableValid(s: State)
    requires Reachable(s)
    ensures Valid(s)
  {
    var callback: Bit, events: seq<Event> :| s == Run(Initial(callback), events);
    RunValid(Initial(callback), events);
  }

  // ---------------------------------------------------------------- what the lifecycle promises

  /** At most one shutdown ever reports success. */
  lemma ShutdownSucceedsOnce(s: State)
    requires Reachable(s)
    ensures s.oks <= 1
  {
    ReachableValid(s);
  }

  /** The count is exact: it rises with each TB_OK, and TB_OK is given only while nobody has it. */
  lemma StepCountsOk(s: State, t: nat, ch: Choice)
    requires Reachable(s) && At(s, t) != ShutdownDone(TB_OK)
    ensures At(Step(s, t, ch), t) == ShutdownDone(TB_OK) <==> Step(s, t, ch).oks == s.oks + 1
    ensures At(Step(s, t, ch), t) == ShutdownDone(TB_OK) ==> s.oks == 0
  {
    ReachableValid(s);
  }

  /** The callback runs on one thread at a time, and never once its disposal has begun. */
  lemma CallbackExcludesDisposal(s: State, t: nat, u: nat)
    requires Reachable(s) && At(s, t).Running?
    ensures s.callback.Yes? && s.everTaken.No?
    ensures u != t ==> !HoldsMutex(At(s, u)) && !At(s, u).Disposed? && !At(s, u).ShutdownInbound?
  {
    ReachableValid(s);
    assert ThreadFits(s, t, At(s, t)) && ThreadFits(s, u, At(s, u));
  }

  /** After a disposal every reinitialization, also a later one, is refused. */
  lemma NoCallbackAfterDisposal(s: State, later: State, t: nat)
    requires Reachable(s) && Follows(s, later) && s.everTaken.Yes?
    ensures !At(later, t).Running?
    ensures later.callback.No?
  {
    ReachableValid(s);
    var events: seq<Event> :| later == Run(s, events);
    RunValid(s, events);
    assert ThreadFits(later, t, At(later, t));
  }

  /** A delivery that starts after some shutdown returned TB_OK or TB_CLOSED is never accepted. */
  lemma NoDeliveryAfterShutdown(s: State, shut: nat, later: State, t: nat, ch: Choice)
    requires Reachable(s) && At(s, shut).ShutdownDone? && At(s, shut).code != TB_PANICKED
    requires Follows(s, later) && At(later, t).DeliverEntered?
    ensures At(Step(later, t, ch), t) == DeliverSending(No)
    ensures At(Step(Step(later, t, ch), t, ch), t) == DeliverDone(No)
  {
    ReachableValid(s);
    assert ThreadFits(s, shut, At(s, shut));
    var events: seq<Event> :| later == Run(s, events);
    RunValid(s, events);
  }

  /** Exactly: a delivery is refused before it reaches the queue if and only if some shutdown got past the sender. */
  lemma DeliveryRefusedIff(s: State, t: nat, ch: Choice)
    requires Reachable(s) && At(s, t).DeliverEntered?
    ensures At(Step(s, t, ch), t) == DeliverSending(No) <==> exists u: nat :: PastInbound(At(s, u))
  {
    ReachableValid(s);
    forall u: nat | PastInbound(At(s, u)) ensures s.inbound.No? {
      assert ThreadFits(s, u, At(s, u));
    }
  }

  /** After a shutdown that answered TB_PANICKED alone, deliveries are still accepted. */
  lemma DeliveryAfterPanickedShutdown()
    ensures var s := Alone(Initial(Yes), Shutdown, Panics);
      && At(s, 0) == ShutdownDone(TB_PANICKED) && s.lock == None && s.callback.No? && s.runtime.Yes?
      && At(Step(Step(Step(s, 1, Go(Deliver)), 1, QueueTakes), 1, QueueTakes), 1) == DeliverDone(Yes)
  {
  }

  /** The failed-setup fault is reported only when the callback is already gone and cannot run again. */
  lemma FaultAfterDisposal(s: State, t: nat, u: nat)
    requires Reachable(s) && At(s, t).FaultReported?
    ensures s.callback.No? && !At(s, u).Running?
  {
    ReachableValid(s);
    assert ThreadFits(s, t, At(s, t)) && ThreadFits(s, u, At(s, u));
  }

  // ---------------------------------------------------------------- the same calls on the object

  /** The fields one ABI call takes and replaces, run without interleaving. */
  class RuntimeState {
    var callback: Bit
    var inbound: Bit
    var runtime: Bit

    ghost function Value(): State
      reads this
    {
      State(None, callback, inbound, runtime, map[], if runtime.Yes? then 0 else 1,
            if callback.Yes? then No else Yes)
    }

    constructor (callback: Bit)
      ensures this.callback == callback && inbound.Yes? && runtime.Yes?
    {
      this.callback, inbound, runtime := callback, Yes, Yes;
    }

    /** The regions of shutdown in a row; `panics` is whether the callback panics while it is dropped. */
    method Shutdown(panics: bool) returns (code: int)
      modifies this
      ensures callback.No?
      ensures if panics && old(callback).Yes? then
                code == TB_PANICKED && inbound == old(inbound) && runtime == old(runtime)
              else
                code == (if old(runtime).Yes? then TB_OK else TB_CLOSED) && inbound.No? && runtime.No?
      ensures var alone := Alone(old(Value()), Work.Shutdown, if panics then Panics else QueueTakes);
              At(alone, 0) == ShutdownDone(code) && Value() == alone.(threads := map[])
    {
      var held := callback;
      callback := No;
      if panics && held.Yes? {
        return TB_PANICKED;
      }
      inbound := No;
      if runtime.Yes? {
        runtime := No;
        return TB_OK;
      }
      return TB_CLOSED;
    }

    /** The regions of reinitialize in a row: what the callback does decides the code and nothing else. */
    method Reinitialize(outcome: Choice) returns (code: int)
      requires outcome.Returns? || outcome == Panics
      ensures var alone := Alone(Value(), Work.Reinitialize, outcome);
              At(alone, 0) == ReinitDone(code) && Value() == alone.(threads := map[])
      ensures code == TB_CLOSED || callback.Yes?
    {
      if callback.No? {
        return TB_CLOSED;
      }
      return if outcome.Returns? then outcome.code else TB_PANICKED;
    }
  }

  /** A call on thread 0 that nobody interrupts: its entry and up to three regions. */
  function Alone(s: State, work: Work, ch: Choice): State {
    Step(Step(Step(Step(s, 0, Go(work)), 0, ch), 0, ch), 0, ch)
  }
}
