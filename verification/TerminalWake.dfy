/**
 Eleventh layer: the condition variable. A thread that waits with its guard true
 is never forgotten: the region that made the guard true belongs to a thread
 that has still to notify.
 */
module TerminalWake {
  import opened TerminalMemory
  import opened TerminalProtocol

  predicate Parkable(main: Main) {
    main.WWait? || main.RRetireWait? || main.RConstructWait? || main.HWait?
  }

  /** The wait at `main` is over: its condition no longer asks the thread to wait. */
  predicate Enabled(m: Memory, main: Main) {
    && (main.WWait? ==> m.cell.operation.Some? || WorkerMayLeave(m))
    && (main.RRetireWait? || main.RConstructWait? ==> !ReinitMustWait(m))
    && (main.HWait? ==> m.ctl.completion.Some?)
  }

  /** The thread will execute a notify_all before it leaves the function it is in. */
  predicate OwesNotify(th: Thread) {
    || th.lib.HookNotify? || th.lib.HookPanicNotify? || th.lib.RejectNotify?
    || th.main.SPublishNotify? || th.main.WAckNotify? || th.main.WNotify?
    || th.main.RRetireNotify? || th.main.RConstructNotify? || th.main.REndNotify?
  }

  predicate WakeLocal(m: Memory, h: History, t: nat, th: Thread, parked: bool) {
    && (parked ==> th.lib == Out && Parkable(th.main))
    && (parked && Enabled(m, th.main) ==> h.duty.wakeDue.Yes?)
    && (h.duty.wakeDue.Yes? && h.duty.waker == t ==> OwesNotify(th))
  }

  predicate ParkedAfter(parked: bool, parking: Parking) {
    parking == ParkSelf || (parking == Stay && parked)
  }

  /** Nobody's guard becomes true without a wake-up being due. */
  predicate WakeGuarantee(t: nat, m: Memory, h: History, e: Effect) {
    && (e.parking != WakeAll ==>
          && (h.duty.wakeDue.Yes? ==> e.h.duty.wakeDue.Yes?)
          && (e.h.duty.wakeDue.No? ==>
                && (e.m.cell.operation.Some? || WorkerMayLeave(e.m) ==> m.cell.operation.Some? || WorkerMayLeave(m))
                && (ReinitMustWait(m) ==> ReinitMustWait(e.m))
                && (e.m.ctl.completion.Some? ==> m.ctl.completion.Some?)))
    && (e.h.duty.wakeDue.Yes? && e.h.duty.waker != t ==> h.duty.wakeDue.Yes? && e.h.duty.waker == h.duty.waker)
  }

  predicate WakeStep(m: Memory, h: History, t: nat, e: Effect, parked: bool) {
    && WakeLocal(e.m, e.h, t, e.th, ParkedAfter(parked, e.parking))
    && WakeGuarantee(t, m, h, e)
  }

  lemma WakeStable(m: Memory, h: History, e: Effect, t: nat, u: nat, th: Thread, parked: bool)
    requires u != t && WakeLocal(m, h, u, th, parked) && WakeGuarantee(t, m, h, e)
    ensures WakeLocal(e.m, e.h, u, th, parked && e.parking != WakeAll)
  {
  }

  lemma WakeCommit(m: Memory, h: History, t: nat, th: Thread, parked: bool, ch: Choice)
    requires WakeLocal(m, h, t, th, parked)
    requires InCommit(th.lib)
    ensures WakeStep(m, h, t, CommitEffect(m, h, t, th, ch), parked)
  {
  }

  lemma WakeRequest(m: Memory, h: History, t: nat, th: Thread, parked: bool, ch: Choice)
    requires WakeLocal(m, h, t, th, parked)
    requires InRequest(th.lib)
    ensures WakeStep(m, h, t, RequestEffect(m, h, t, th, ch), parked)
  {
  }

  lemma WakeHookPanic(m: Memory, h: History, t: nat, th: Thread, parked: bool)
    requires WakeLocal(m, h, t, th, parked)
    requires InHookPanic(th.lib)
    ensures WakeStep(m, h, t, HookPanicEffect(m, h, t, th), parked)
  {
  }

  lemma WakeMark(m: Memory, h: History, t: nat, th: Thread, parked: bool)
    requires WakeLocal(m, h, t, th, parked)
    requires InMark(th.lib)
    ensures WakeStep(m, h, t, MarkEffect(m, h, th), parked)
  {
  }

  lemma WakeSchedule(m: Memory, h: History, t: nat, th: Thread, parked: bool, ch: Choice)
    requires WakeLocal(m, h, t, th, parked)
    requires InSchedule(th.lib)
    ensures WakeStep(m, h, t, ScheduleEffect(m, h, t, th, ch), parked)
  {
  }

  lemma WakeParse(m: Memory, h: History, th: Thread, parked: bool, ch: Choice)
    requires WakeLocal(m, h, STARTUP, th, parked)
    requires th.lib == Out && InParse(th.main)
    ensures WakeStep(m, h, STARTUP, ParseEffect(m, h, th.main, ch), parked)
  {
  }

  lemma WakeFactory(m: Memory, h: History, th: Thread, parked: bool, ch: Choice)
    requires WakeLocal(m, h, STARTUP, th, parked)
    requires th.lib == Out && InFactory(th.main)
    ensures WakeStep(m, h, STARTUP, FactoryEffect(m, h, th.main, ch), parked)
  {
    var e := FactoryEffect(m, h, th.main, ch);
    assert WakeGuarantee(STARTUP, m, h, e);
    assert WakeLocal(e.m, e.h, STARTUP, e.th, ParkedAfter(parked, e.parking));
  }

  lemma WakeAttach(m: Memory, h: History, th: Thread, parked: bool, ch: Choice)
    requires WakeLocal(m, h, STARTUP, th, parked)
    requires th.lib == Out && InAttach(th.main)
    ensures WakeStep(m, h, STARTUP, AttachEffect(m, h, th.main, ch), parked)
  {
    var e := AttachEffect(m, h, th.main, ch);
    assert WakeStep(m, h, STARTUP, e, parked);
  }

  lemma WakePublish(m: Memory, h: History, th: Thread, parked: bool)
    requires WakeLocal(m, h, STARTUP, th, parked)
    requires th.lib == Out && InPublish(th.main)
    ensures WakeStep(m, h, STARTUP, PublishEffect(m, h, th.main), parked)
  {
  }

  lemma WakeTaskEnds(m: Memory, h: History, th: Thread, parked: bool, ch: Choice)
    requires WakeLocal(m, h, TASK, th, parked)
    requires th.lib == Out && h.stage.taskSpawned.Yes?
    requires th.main.THandshake? || th.main.TPoll?
    ensures WakeStep(m, h, TASK, TaskEffect(m, h, th.main, ch), parked)
  {
    var e := TaskEffect(m, h, th.main, ch);
    assert WakeGuarantee(TASK, m, h, e);
    assert WakeLocal(e.m, e.h, TASK, e.th, ParkedAfter(parked, e.parking));
  }

  lemma WakeTaskSets(m: Memory, h: History, th: Thread, parked: bool, ch: Choice)
    requires WakeLocal(m, h, TASK, th, parked)
    requires th.lib == Out && h.stage.taskSpawned.Yes?
    requires !th.main.THandshake? && !th.main.TPoll?
    ensures WakeStep(m, h, TASK, TaskEffect(m, h, th.main, ch), parked)
  {
    var e := TaskEffect(m, h, th.main, ch);
    assert WakeGuarantee(TASK, m, h, e);
    assert WakeLocal(e.m, e.h, TASK, e.th, ParkedAfter(parked, e.parking));
  }

  lemma WakeLoop(m: Memory, h: History, th: Thread, parked: bool, ch: Choice)
    requires WakeLocal(m, h, WORKER, th, parked)
    requires th.lib == Out && InLoop(th.main) && h.stage.workerStarted.Yes?
    ensures WakeStep(m, h, WORKER, LoopEffect(m, h, th.main, parked, ch), parked)
  {
    var e := LoopEffect(m, h, th.main, parked, ch);
    assert WakeStep(m, h, WORKER, e, parked);
  }

  lemma WakeOperation(m: Memory, h: History, th: Thread, parked: bool, ch: Choice)
    requires WakeLocal(m, h, WORKER, th, parked)
    requires th.lib == Out && InOperation(th.main) && h.stage.workerStarted.Yes?
    ensures WakeStep(m, h, WORKER, OperationEffect(m, h, th.main, ch), parked)
  {
    var e := OperationEffect(m, h, th.main, ch);
    assert WakeStep(m, h, WORKER, e, parked);
  }

  lemma WakeClosure(m: Memory, h: History, th: Thread, parked: bool, ch: Choice)
    requires WakeLocal(m, h, WORKER, th, parked)
    requires th.lib == Out && InClosure(th.main) && h.stage.workerStarted.Yes?
    ensures WakeStep(m, h, WORKER, ClosureEffect(m, h, th.main, ch), parked)
  {
  }

  lemma WakeParsed(m: Memory, h: History, th: Thread, parked: bool, ch: Choice)
    requires WakeLocal(m, h, WORKER, th, parked)
    requires th.lib == Out && InParsed(th.main) && h.stage.workerStarted.Yes?
    ensures WakeStep(m, h, WORKER, ParsedEffect(m, h, th.main, ch), parked)
  {
    var e := ParsedEffect(m, h, th.main, ch);
    assert WakeGuarantee(WORKER, m, h, e);
    assert WakeLocal(e.m, e.h, WORKER, e.th, ParkedAfter(parked, e.parking));
  }

  lemma WakeSettleJoin(m: Memory, h: History, th: Thread, parked: bool, ch: Choice)
    requires WakeLocal(m, h, WORKER, th, parked)
    requires th.lib == Out && InSettle(th.main) && h.stage.workerStarted.Yes?
    requires th.main.WSettle? || th.main.WJoin?
    ensures WakeStep(m, h, WORKER, SettleEffect(m, h, th.main, ch), parked)
  {
  }

  lemma WakeSettleDone(m: Memory, h: History, th: Thread, parked: bool, ch: Choice)
    requires WakeLocal(m, h, WORKER, th, parked)
    requires th.lib == Out && InSettle(th.main) && h.stage.workerStarted.Yes?
    requires !th.main.WSettle? && !th.main.WJoin?
    ensures WakeStep(m, h, WORKER, SettleEffect(m, h, th.main, ch), parked)
  {
    var e := SettleEffect(m, h, th.main, ch);
    assert WakeStep(m, h, WORKER, e, parked);
  }

  lemma WakeRelease(m: Memory, h: History, th: Thread, parked: bool, ch: Choice)
    requires WakeLocal(m, h, WORKER, th, parked)
    requires th.lib == Out && InRelease(th.main) && h.stage.workerStarted.Yes?
    ensures WakeStep(m, h, WORKER, ReleaseEffect(m, h, th.main, ch), parked)
  {
    var e := ReleaseEffect(m, h, th.main, ch);
    assert e.m.ctl == m.ctl && e.m.cell == m.cell;
    assert WakeStep(m, h, WORKER, e, parked);
  }

  lemma WakeFinish(m: Memory, h: History, th: Thread, parked: bool, ch: Choice)
    requires WakeLocal(m, h, WORKER, th, parked)
    requires th.lib == Out && InFinish(th.main) && h.stage.workerStarted.Yes?
    ensures WakeStep(m, h, WORKER, FinishEffect(m, h, th.main, ch), parked)
  {
  }

  lemma WakeStart(m: Memory, h: History, t: nat, th: Thread, parked: bool, ch: Choice)
    requires WakeLocal(m, h, t, th, parked)
    requires t >= FIRST_CALLER && th == Thread(Out, Rest)
    ensures WakeStep(m, h, t, StartEffect(m, h, ch), parked)
  {
  }

  lemma WakeShutdownEnter(m: Memory, h: History, t: nat, th: Thread, parked: bool, ch: Choice)
    requires WakeLocal(m, h, t, th, parked)
    requires t >= FIRST_CALLER && th.lib == Out && InShutdown(th.main) && h.stage.exposed.Yes?
    requires !th.main.HWait?
    ensures WakeStep(m, h, t, ShutdownEffect(m, h, th.main, parked, ch), parked)
  {
  }

  lemma WakeShutdownWait(m: Memory, h: History, t: nat, th: Thread, parked: bool, ch: Choice)
    requires WakeLocal(m, h, t, th, parked)
    requires t >= FIRST_CALLER && th.lib == Out && InShutdown(th.main) && h.stage.exposed.Yes?
    requires th.main.HWait?
    ensures WakeStep(m, h, t, ShutdownEffect(m, h, th.main, parked, ch), parked)
  {
  }

  lemma WakeVerdict(m: Memory, h: History, t: nat, th: Thread, parked: bool, ch: Choice)
    requires WakeLocal(m, h, t, th, parked)
    requires t >= FIRST_CALLER && th.lib == Out && InVerdict(th.main) && h.stage.exposed.Yes?
    ensures WakeStep(m, h, t, VerdictEffect(m, h, th.main, ch), parked)
  {
    var e := VerdictEffect(m, h, th.main, ch);
    assert WakeStep(m, h, t, e, parked);
  }

  lemma WakeOwner(m: Memory, h: History, t: nat, th: Thread, parked: bool)
    requires WakeLocal(m, h, t, th, parked)
    requires t >= FIRST_CALLER && th.lib == Out && InOwner(th.main) && h.stage.exposed.Yes?
    ensures WakeStep(m, h, t, OwnerEffect(m, h, th.main), parked)
  {
    var e := OwnerEffect(m, h, th.main);
    assert WakeStep(m, h, t, e, parked);
  }

  lemma WakeAdmit(m: Memory, h: History, t: nat, th: Thread, parked: bool, ch: Choice)
    requires WakeLocal(m, h, t, th, parked)
    requires t >= FIRST_CALLER && th.lib == Out && InAdmit(th.main) && h.stage.exposed.Yes?
    ensures WakeStep(m, h, t, AdmitEffect(m, h, t, th.main, ch), parked)
  {
    var e := AdmitEffect(m, h, t, th.main, ch);
    assert WakeGuarantee(t, m, h, e);
    assert WakeLocal(e.m, e.h, t, e.th, ParkedAfter(parked, e.parking));
  }

  lemma WakeCallbackRun(m: Memory, h: History, t: nat, th: Thread, parked: bool, ch: Choice)
    requires WakeLocal(m, h, t, th, parked)
    requires t >= FIRST_CALLER && th.lib == Out && InCallback(th.main) && h.stage.exposed.Yes?
    requires th.main.RCallback?
    ensures WakeStep(m, h, t, CallbackEffect(m, h, t, th.main, ch), parked)
  {
  }

  lemma WakeCallbackProbe(m: Memory, h: History, t: nat, th: Thread, parked: bool, ch: Choice)
    requires WakeLocal(m, h, t, th, parked)
    requires t >= FIRST_CALLER && th.lib == Out && InCallback(th.main) && h.stage.exposed.Yes?
    requires !th.main.RCallback?
    ensures WakeStep(m, h, t, CallbackEffect(m, h, t, th.main, ch), parked)
  {
    var e := CallbackEffect(m, h, t, th.main, ch);
    assert WakeGuarantee(t, m, h, e);
    assert WakeLocal(e.m, e.h, t, e.th, ParkedAfter(parked, e.parking));
  }

  lemma WakeSubmission(m: Memory, h: History, t: nat, th: Thread, parked: bool)
    requires WakeLocal(m, h, t, th, parked)
    requires t >= FIRST_CALLER && th.lib == Out && InSubmission(th.main) && h.stage.exposed.Yes?
    ensures WakeStep(m, h, t, SubmissionEffect(m, h, t, th.main), parked)
  {
  }

  lemma WakeAwait(m: Memory, h: History, t: nat, th: Thread, parked: bool, ch: Choice)
    requires WakeLocal(m, h, t, th, parked)
    requires t >= FIRST_CALLER && th.lib == Out && InAwait(th.main) && h.stage.exposed.Yes?
    ensures WakeStep(m, h, t, AwaitEffect(m, h, th.main, parked, ch), parked)
  {
  }

  lemma WakeSecond(m: Memory, h: History, t: nat, th: Thread, parked: bool, ch: Choice)
    requires WakeLocal(m, h, t, th, parked)
    requires t >= FIRST_CALLER && th.lib == Out && InSecond(th.main) && h.stage.exposed.Yes?
    ensures WakeStep(m, h, t, SecondEffect(m, h, th.main, ch), parked)
  {
  }

  lemma WakeConcludePoll(m: Memory, h: History, t: nat, th: Thread, parked: bool, ch: Choice)
    requires WakeLocal(m, h, t, th, parked)
    requires t >= FIRST_CALLER && th.lib == Out && InConclude(th.main) && h.stage.exposed.Yes?
    requires th.main.RPoll?
    ensures WakeStep(m, h, t, ConcludeEffect(m, h, t, th.main, ch), parked)
  {
    var e := ConcludeEffect(m, h, t, th.main, ch);
    assert WakeStep(m, h, t, e, parked);
  }

  lemma WakeConcludeEnd(m: Memory, h: History, t: nat, th: Thread, parked: bool, ch: Choice)
    requires WakeLocal(m, h, t, th, parked)
    requires t >= FIRST_CALLER && th.lib == Out && InConclude(th.main) && h.stage.exposed.Yes?
    requires !th.main.RPoll?
    ensures WakeStep(m, h, t, ConcludeEffect(m, h, t, th.main, ch), parked)
  {
  }
}
