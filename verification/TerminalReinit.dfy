/**
 Fourth layer: who owns the reinitialization. One caller at a time holds
 `active_reinit`, it can only be held on a registered and published vtable, and
 its worker has been submitted before it waits.
 */
module TerminalReinit {
  import opened TerminalMemory
  import opened TerminalProtocol
  import opened TerminalOrder
  import opened TerminalRequest

  predicate ReinitFrame(main: Main) {
    || InAdmit(main) || InCallback(main) || InSubmission(main) || InAwait(main)
    || InSecond(main) || InConclude(main)
  }

  /** Startup has registered the hooks and not yet taken an exit. */
  predicate RegisteredFrame(main: Main) {
    main.SRegistered? || main.SLive? || main.SRecheck? || InAttach(main) || main.SVtable?
  }

  /** An operation was submitted and its caller has not returned from the wait. */
  predicate Waiting(main: Main) {
    main.RRetireNotify? || main.RRetireWait? || main.RConstructNotify? || main.RConstructWait?
  }

  predicate ReinitGlobal(m: Memory, h: History) {
    && (m.cell.activeReinit.Yes? ==> m.vtablePublished.Yes?)
    && (m.vtablePublished.Yes? ==> m.ctl.requestState != Unregistered)
  }

  predicate ReinitLocal(m: Memory, h: History, t: nat, th: Thread) {
    && (m.cell.activeReinit.Yes? && h.duty.reinitOwner == t <==> t >= FIRST_CALLER && Active(th.main))
    && (t >= FIRST_CALLER && ReinitFrame(th.main) ==> m.vtablePublished.Yes?)
    && (t >= FIRST_CALLER && Waiting(th.main) && !th.lib.Schedule? ==> m.ctl.finishState != FinishIdle)
    && (t == STARTUP && RegisteredFrame(th.main) ==> m.ctl.requestState != Unregistered)
  }

  predicate ReinitGuarantee(t: nat, m: Memory, h: History, m': Memory, h': History) {
    && (m.cell.activeReinit.Yes? && h.duty.reinitOwner != t ==>
          m'.cell.activeReinit.Yes? && h'.duty.reinitOwner == h.duty.reinitOwner)
    && (m'.cell.activeReinit.Yes? && h'.duty.reinitOwner != t ==>
          m.cell.activeReinit.Yes? && h'.duty.reinitOwner == h.duty.reinitOwner)
    && (m.vtablePublished.Yes? ==> m'.vtablePublished.Yes?)
    && (m.ctl.requestState != Unregistered ==> m'.ctl.requestState != Unregistered)
    && (m.ctl.finishState != FinishIdle ==> m'.ctl.finishState != FinishIdle)
  }

  predicate ReinitStep(m: Memory, h: History, t: nat, e: Effect) {
    && ReinitGlobal(e.m, e.h)
    && ReinitLocal(e.m, e.h, t, e.th)
    && ReinitGuarantee(t, m, h, e.m, e.h)
  }

  lemma ReinitStable(m: Memory, h: History, m': Memory, h': History, t: nat, u: nat, th: Thread)
    requires u != t && ReinitLocal(m, h, u, th) && ReinitGuarantee(t, m, h, m', h')
    ensures ReinitLocal(m', h', u, th)
  {
  }

  lemma ReinitCommit(m: Memory, h: History, t: nat, th: Thread, ch: Choice)
    requires ReinitGlobal(m, h) && ReinitLocal(m, h, t, th)
    requires InCommit(th.lib)
    ensures ReinitStep(m, h, t, CommitEffect(m, h, t, th, ch))
  {
  }

  lemma ReinitRequest(m: Memory, h: History, t: nat, th: Thread, ch: Choice)
    requires ReinitGlobal(m, h) && ReinitLocal(m, h, t, th)
    requires InRequest(th.lib)
    ensures ReinitStep(m, h, t, RequestEffect(m, h, t, th, ch))
  {
  }

  lemma ReinitHookPanic(m: Memory, h: History, t: nat, th: Thread)
    requires ReinitGlobal(m, h) && ReinitLocal(m, h, t, th)
    requires InHookPanic(th.lib)
    ensures ReinitStep(m, h, t, HookPanicEffect(m, h, t, th))
  {
  }

  lemma ReinitMark(m: Memory, h: History, t: nat, th: Thread)
    requires ReinitGlobal(m, h) && ReinitLocal(m, h, t, th)
    requires InMark(th.lib)
    ensures ReinitStep(m, h, t, MarkEffect(m, h, th))
  {
  }

  lemma ReinitSchedule(m: Memory, h: History, t: nat, th: Thread, ch: Choice)
    requires ReinitGlobal(m, h) && ReinitLocal(m, h, t, th)
    requires InSchedule(th.lib)
    ensures ReinitStep(m, h, t, ScheduleEffect(m, h, t, th, ch))
  {
  }

  lemma ReinitParse(m: Memory, h: History, th: Thread, ch: Choice)
    requires ReinitGlobal(m, h) && ReinitLocal(m, h, STARTUP, th)
    requires th.lib == Out && InParse(th.main)
    ensures ReinitStep(m, h, STARTUP, ParseEffect(m, h, th.main, ch))
  {
  }

  lemma ReinitFactory(m: Memory, h: History, th: Thread, ch: Choice)
    requires ReinitGlobal(m, h) && ReinitLocal(m, h, STARTUP, th)
    requires RequestLocal(m, h, STARTUP, th)
    requires th.lib == Out && InFactory(th.main)
    ensures ReinitStep(m, h, STARTUP, FactoryEffect(m, h, th.main, ch))
  {
  }

  lemma ReinitAttach(m: Memory, h: History, th: Thread, ch: Choice)
    requires ReinitGlobal(m, h) && ReinitLocal(m, h, STARTUP, th)
    requires th.lib == Out && InAttach(th.main)
    ensures ReinitStep(m, h, STARTUP, AttachEffect(m, h, th.main, ch))
  {
  }

  lemma ReinitPublish(m: Memory, h: History, th: Thread)
    requires ReinitGlobal(m, h) && ReinitLocal(m, h, STARTUP, th)
    requires th.lib == Out && InPublish(th.main)
    ensures ReinitStep(m, h, STARTUP, PublishEffect(m, h, th.main))
  {
  }

  lemma ReinitTask(m: Memory, h: History, th: Thread, ch: Choice)
    requires ReinitGlobal(m, h) && ReinitLocal(m, h, TASK, th)
    requires th.lib == Out && h.stage.taskSpawned.Yes?
    ensures ReinitStep(m, h, TASK, TaskEffect(m, h, th.main, ch))
  {
    var e := TaskEffect(m, h, th.main, ch);
    assert ReinitStep(m, h, TASK, e);
  }

  lemma ReinitLoop(m: Memory, h: History, th: Thread, parked: bool, ch: Choice)
    requires ReinitGlobal(m, h) && ReinitLocal(m, h, WORKER, th)
    requires th.lib == Out && InLoop(th.main) && h.stage.workerStarted.Yes?
    ensures ReinitStep(m, h, WORKER, LoopEffect(m, h, th.main, parked, ch))
  {
  }

  lemma ReinitOperation(m: Memory, h: History, th: Thread, ch: Choice)
    requires ReinitGlobal(m, h) && ReinitLocal(m, h, WORKER, th)
    requires th.lib == Out && InOperation(th.main) && h.stage.workerStarted.Yes?
    ensures ReinitStep(m, h, WORKER, OperationEffect(m, h, th.main, ch))
  {
  }

  lemma ReinitClosure(m: Memory, h: History, th: Thread, ch: Choice)
    requires ReinitGlobal(m, h) && ReinitLocal(m, h, WORKER, th)
    requires th.lib == Out && InClosure(th.main) && h.stage.workerStarted.Yes?
    ensures ReinitStep(m, h, WORKER, ClosureEffect(m, h, th.main, ch))
  {
  }

  lemma ReinitParsed(m: Memory, h: History, th: Thread, ch: Choice)
    requires ReinitGlobal(m, h) && ReinitLocal(m, h, WORKER, th)
    requires th.lib == Out && InParsed(th.main) && h.stage.workerStarted.Yes?
    ensures ReinitStep(m, h, WORKER, ParsedEffect(m, h, th.main, ch))
  {
  }

  lemma ReinitSettle(m: Memory, h: History, th: Thread, ch: Choice)
    requires ReinitGlobal(m, h) && ReinitLocal(m, h, WORKER, th)
    requires th.lib == Out && InSettle(th.main) && h.stage.workerStarted.Yes?
    ensures ReinitStep(m, h, WORKER, SettleEffect(m, h, th.main, ch))
  {
  }

  lemma ReinitRelease(m: Memory, h: History, th: Thread, ch: Choice)
    requires ReinitGlobal(m, h) && ReinitLocal(m, h, WORKER, th)
    requires th.lib == Out && InRelease(th.main) && h.stage.workerStarted.Yes?
    ensures ReinitStep(m, h, WORKER, ReleaseEffect(m, h, th.main, ch))
  {
  }

  lemma ReinitFinish(m: Memory, h: History, th: Thread, ch: Choice)
    requires ReinitGlobal(m, h) && ReinitLocal(m, h, WORKER, th)
    requires th.lib == Out && InFinish(th.main) && h.stage.workerStarted.Yes?
    ensures ReinitStep(m, h, WORKER, FinishEffect(m, h, th.main, ch))
  {
  }

  lemma ReinitStart(m: Memory, h: History, t: nat, th: Thread, ch: Choice)
    requires ReinitGlobal(m, h) && ReinitLocal(m, h, t, th)
    requires t >= FIRST_CALLER && th == Thread(Out, Rest)
    ensures ReinitStep(m, h, t, StartEffect(m, h, ch))
  {
  }

  lemma ReinitShutdownEnter(m: Memory, h: History, t: nat, th: Thread, parked: bool, ch: Choice)
    requires ReinitGlobal(m, h) && ReinitLocal(m, h, t, th)
    requires t >= FIRST_CALLER && th.lib == Out && InShutdown(th.main) && h.stage.exposed.Yes?
    requires !th.main.HWait?
    ensures ReinitStep(m, h, t, ShutdownEffect(m, h, th.main, parked, ch))
  {
  }

  lemma ReinitShutdownWait(m: Memory, h: History, t: nat, th: Thread, parked: bool, ch: Choice)
    requires ReinitGlobal(m, h) && ReinitLocal(m, h, t, th)
    requires t >= FIRST_CALLER && th.lib == Out && InShutdown(th.main) && h.stage.exposed.Yes?
    requires th.main.HWait?
    ensures ReinitStep(m, h, t, ShutdownEffect(m, h, th.main, parked, ch))
  {
  }

  lemma ReinitVerdict(m: Memory, h: History, t: nat, th: Thread, ch: Choice)
    requires ReinitGlobal(m, h) && ReinitLocal(m, h, t, th)
    requires t >= FIRST_CALLER && th.lib == Out && InVerdict(th.main) && h.stage.exposed.Yes?
    ensures ReinitStep(m, h, t, VerdictEffect(m, h, th.main, ch))
  {
    var e := VerdictEffect(m, h, th.main, ch);
    assert ReinitStep(m, h, t, e);
  }

  lemma ReinitOwner(m: Memory, h: History, t: nat, th: Thread)
    requires ReinitGlobal(m, h) && ReinitLocal(m, h, t, th)
    requires t >= FIRST_CALLER && th.lib == Out && InOwner(th.main) && h.stage.exposed.Yes?
    ensures ReinitStep(m, h, t, OwnerEffect(m, h, th.main))
  {
    var e := OwnerEffect(m, h, th.main);
    assert ReinitStep(m, h, t, e);
  }

  lemma ReinitAdmit(m: Memory, h: History, t: nat, th: Thread, ch: Choice)
    requires ReinitGlobal(m, h) && ReinitLocal(m, h, t, th)
    requires t >= FIRST_CALLER && th.lib == Out && InAdmit(th.main) && h.stage.exposed.Yes?
    ensures ReinitStep(m, h, t, AdmitEffect(m, h, t, th.main, ch))
  {
    var e := AdmitEffect(m, h, t, th.main, ch);
    assert ReinitStep(m, h, t, e);
  }

  lemma ReinitCallback(m: Memory, h: History, t: nat, th: Thread, ch: Choice)
    requires ReinitGlobal(m, h) && ReinitLocal(m, h, t, th)
    requires t >= FIRST_CALLER && th.lib == Out && InCallback(th.main) && h.stage.exposed.Yes?
    ensures ReinitStep(m, h, t, CallbackEffect(m, h, t, th.main, ch))
  {
  }

  lemma ReinitSubmission(m: Memory, h: History, t: nat, th: Thread)
    requires ReinitGlobal(m, h) && ReinitLocal(m, h, t, th)
    requires t >= FIRST_CALLER && th.lib == Out && InSubmission(th.main) && h.stage.exposed.Yes?
    ensures ReinitStep(m, h, t, SubmissionEffect(m, h, t, th.main))
  {
  }

  lemma ReinitAwait(m: Memory, h: History, t: nat, th: Thread, parked: bool, ch: Choice)
    requires ReinitGlobal(m, h) && ReinitLocal(m, h, t, th)
    requires t >= FIRST_CALLER && th.lib == Out && InAwait(th.main) && h.stage.exposed.Yes?
    ensures ReinitStep(m, h, t, AwaitEffect(m, h, th.main, parked, ch))
  {
  }

  lemma ReinitSecond(m: Memory, h: History, t: nat, th: Thread, ch: Choice)
    requires ReinitGlobal(m, h) && ReinitLocal(m, h, t, th)
    requires t >= FIRST_CALLER && th.lib == Out && InSecond(th.main) && h.stage.exposed.Yes?
    ensures ReinitStep(m, h, t, SecondEffect(m, h, th.main, ch))
  {
  }

  lemma ReinitConclude(m: Memory, h: History, t: nat, th: Thread, ch: Choice)
    requires ReinitGlobal(m, h) && ReinitLocal(m, h, t, th)
    requires t >= FIRST_CALLER && th.lib == Out && InConclude(th.main) && h.stage.exposed.Yes?
    ensures ReinitStep(m, h, t, ConcludeEffect(m, h, t, th.main, ch))
  {
    var e := ConcludeEffect(m, h, t, th.main, ch);
    assert ReinitStep(m, h, t, e);
  }
}
