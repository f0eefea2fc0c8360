/**
 Eighth layer: the controller's finish hook and the foreign destructors. The
 hook is taken once and runs at most once; a destructor that panics stops the
 release before it begins or where it stands.
 */
module TerminalHook {
  import opened Wrappers
  import opened TerminalMemory
  import opened TerminalProtocol
  import opened TerminalRequest
  import opened TerminalFinish
  import opened TerminalJoin

  predicate Registered(m: Memory) {
    m.ctl.requestState != Unregistered
  }

  /** The finish hook has not run. */
  predicate Unspent(h: History) {
    h.runs.finishRuns == 0 && h.runs.finishStopped.No? && OfFinish !in h.panics.panicked
  }

  /** The hook is still in its slot, if it was ever registered. */
  predicate Stored(m: Memory, h: History) {
    Unspent(h) && (m.ctl.finish.Yes? <==> Registered(m))
  }

  /** No foreign destructor has panicked under the worker's catch. */
  predicate Clean(m: Memory, h: History) {
    m.cell.retirementFailed.No? && OfCleanup !in h.panics.panicked
  }

  /** A registered finish hook ran exactly once and returned PhysicallyStopped. */
  predicate Stopped(m: Memory, h: History) {
    && OfFinish !in h.panics.panicked
    && (if Registered(m) then h.runs.finishRuns == 1 && h.runs.finishStopped.Yes? else h.runs.finishRuns == 0)
  }

  /** A registered finish hook was called exactly once, whatever it did. */
  predicate Attempted(m: Memory, h: History) {
    h.runs.finishRuns == (if Registered(m) then 1 else 0)
  }

  predicate HookGlobal(m: Memory, h: History) {
    && (m.ctl.completion == Some(PhysicallyStopped) ==> Clean(m, h) && Stopped(m, h))
    && h.runs.finishRuns <= 1 && (h.runs.finishRuns == 1 ==> Left(m))
  }

  predicate BeforeTake(main: Main) {
    LoopFrame(main) || main.WSettle? || main.WJoin? || main.WRetired?
  }

  predicate WorkerSpends(m: Memory, h: History, main: Main) {
    && (BeforeTake(main) || main.WDispose? || main.WTakeFinish? ==> Stored(m, h))
    && (BeforeTake(main) && OfCleanup in h.panics.panicked ==>
          m.cell.retirementFailed.Yes? || (main.WAck? && main.failed.Yes?))
    && (main.WFinish? ==> Unspent(h) && (main.hook.Yes? <==> Registered(m)))
    && (main.WDispose? || ((main.WTakeFinish? || main.WFinish?) && main.failed.No?) ==> Clean(m, h))
    && (main.WRelease? || main.WOwners? ==> Clean(m, h) && Stopped(m, h))
    && (InFinish(main) ==> Attempted(m, h))
    && !main.WRestore?
    && ((main.WObserve? || main.WChecks?) && main.released.Yes? ==> Clean(m, h) && Stopped(m, h))
    && (main.WFinal? && main.failedChecks.No? ==> Clean(m, h) && Stopped(m, h))
  }

  predicate HookLocal(m: Memory, h: History, t: nat, th: Thread) {
    t == WORKER ==> WorkerSpends(m, h, th.main)
  }

  predicate HookGuarantee(t: nat, m: Memory, h: History, m': Memory, h': History) {
    t != WORKER ==>
      && h'.runs.finishRuns == h.runs.finishRuns && h'.runs.finishStopped == h.runs.finishStopped
      && (OfCleanup in h'.panics.panicked <==> OfCleanup in h.panics.panicked)
      && (OfFinish in h'.panics.panicked <==> OfFinish in h.panics.panicked)
      && m'.cell.retirementFailed == m.cell.retirementFailed
      && ((m'.ctl.finish == m.ctl.finish && (Registered(m') <==> Registered(m)))
          || (t == STARTUP && !Left(m) && m'.ctl.finish.Yes? && Registered(m')))
  }

  predicate HookStep(m: Memory, h: History, t: nat, e: Effect) {
    && HookGlobal(e.m, e.h)
    && HookLocal(e.m, e.h, t, e.th)
    && HookGuarantee(t, m, h, e.m, e.h)
  }

  lemma HookStable(m: Memory, h: History, m': Memory, h': History, t: nat, u: nat, th: Thread)
    requires u != t && HookLocal(m, h, u, th) && HookGuarantee(t, m, h, m', h')
    requires FinishGlobal(m, h) && FinishLocal(m, h, u, th)
    ensures HookLocal(m', h', u, th)
  {
  }

  lemma HookCommitHost(m: Memory, h: History, t: nat, th: Thread, ch: Choice)
    requires HookGlobal(m, h) && HookLocal(m, h, t, th)
    requires InCommit(th.lib)
    requires th.lib.HostFault?
    ensures HookStep(m, h, t, CommitEffect(m, h, t, th, ch))
  {
  }

  lemma HookCommitSwap(m: Memory, h: History, t: nat, th: Thread, ch: Choice)
    requires HookGlobal(m, h) && HookLocal(m, h, t, th)
    requires InCommit(th.lib)
    requires !th.lib.HostFault?
    ensures HookStep(m, h, t, CommitEffect(m, h, t, th, ch))
  {
    var e := CommitEffect(m, h, t, th, ch);
    assert HookStep(m, h, t, e);
  }

  lemma HookRequest(m: Memory, h: History, t: nat, th: Thread, ch: Choice)
    requires HookGlobal(m, h) && HookLocal(m, h, t, th)
    requires RequestLocal(m, h, t, th)
    requires InRequest(th.lib)
    ensures HookStep(m, h, t, RequestEffect(m, h, t, th, ch))
  {
  }

  lemma HookHookPanic(m: Memory, h: History, t: nat, th: Thread)
    requires HookGlobal(m, h) && HookLocal(m, h, t, th)
    requires RequestLocal(m, h, t, th)
    requires InHookPanic(th.lib)
    ensures HookStep(m, h, t, HookPanicEffect(m, h, t, th))
  {
  }

  lemma HookMark(m: Memory, h: History, t: nat, th: Thread)
    requires HookGlobal(m, h) && HookLocal(m, h, t, th)
    requires InMark(th.lib)
    ensures HookStep(m, h, t, MarkEffect(m, h, th))
  {
  }

  lemma HookSchedule(m: Memory, h: History, t: nat, th: Thread, ch: Choice)
    requires HookGlobal(m, h) && HookLocal(m, h, t, th)
    requires FinishLocal(m, h, t, th)
    requires InSchedule(th.lib)
    ensures HookStep(m, h, t, ScheduleEffect(m, h, t, th, ch))
  {
  }

  lemma HookParse(m: Memory, h: History, th: Thread, ch: Choice)
    requires HookGlobal(m, h) && HookLocal(m, h, STARTUP, th)
    requires th.lib == Out && InParse(th.main)
    ensures HookStep(m, h, STARTUP, ParseEffect(m, h, th.main, ch))
  {
  }

  lemma HookFactory(m: Memory, h: History, th: Thread, ch: Choice)
    requires HookGlobal(m, h) && HookLocal(m, h, STARTUP, th)
    requires RequestLocal(m, h, STARTUP, th) && FinishGlobal(m, h) && FinishLocal(m, h, STARTUP, th)
    requires th.lib == Out && InFactory(th.main)
    ensures HookStep(m, h, STARTUP, FactoryEffect(m, h, th.main, ch))
  {
  }

  lemma HookAttach(m: Memory, h: History, th: Thread, ch: Choice)
    requires HookGlobal(m, h) && HookLocal(m, h, STARTUP, th)
    requires th.lib == Out && InAttach(th.main)
    ensures HookStep(m, h, STARTUP, AttachEffect(m, h, th.main, ch))
  {
  }

  lemma HookPublish(m: Memory, h: History, th: Thread)
    requires HookGlobal(m, h) && HookLocal(m, h, STARTUP, th)
    requires th.lib == Out && InPublish(th.main)
    ensures HookStep(m, h, STARTUP, PublishEffect(m, h, th.main))
  {
  }

  lemma HookTask(m: Memory, h: History, th: Thread, ch: Choice)
    requires HookGlobal(m, h) && HookLocal(m, h, TASK, th)
    requires th.lib == Out && h.stage.taskSpawned.Yes?
    ensures HookStep(m, h, TASK, TaskEffect(m, h, th.main, ch))
  {
  }

  lemma HookLoop(m: Memory, h: History, th: Thread, parked: bool, ch: Choice)
    requires HookGlobal(m, h) && HookLocal(m, h, WORKER, th)
    requires FinishGlobal(m, h) && FinishLocal(m, h, WORKER, th)
    requires th.lib == Out && InLoop(th.main) && h.stage.workerStarted.Yes?
    ensures HookStep(m, h, WORKER, LoopEffect(m, h, th.main, parked, ch))
  {
    var e := LoopEffect(m, h, th.main, parked, ch);
    assert HookStep(m, h, WORKER, e);
  }

  lemma HookOperation(m: Memory, h: History, th: Thread, ch: Choice)
    requires HookGlobal(m, h) && HookLocal(m, h, WORKER, th)
    requires FinishGlobal(m, h) && FinishLocal(m, h, WORKER, th)
    requires th.lib == Out && InOperation(th.main) && h.stage.workerStarted.Yes?
    ensures HookStep(m, h, WORKER, OperationEffect(m, h, th.main, ch))
  {
    var e := OperationEffect(m, h, th.main, ch);
    assert HookStep(m, h, WORKER, e);
  }

  lemma HookClosure(m: Memory, h: History, th: Thread, ch: Choice)
    requires HookGlobal(m, h) && HookLocal(m, h, WORKER, th)
    requires th.lib == Out && InClosure(th.main) && h.stage.workerStarted.Yes?
    ensures HookStep(m, h, WORKER, ClosureEffect(m, h, th.main, ch))
  {
  }

  lemma HookParsed(m: Memory, h: History, th: Thread, ch: Choice)
    requires HookGlobal(m, h) && HookLocal(m, h, WORKER, th)
    requires th.lib == Out && InParsed(th.main) && h.stage.workerStarted.Yes?
    ensures HookStep(m, h, WORKER, ParsedEffect(m, h, th.main, ch))
  {
    var e := ParsedEffect(m, h, th.main, ch);
    assert e.m.cell == m.cell && e.m.ctl.finish == m.ctl.finish && e.h.runs == h.runs;
    assert HookStep(m, h, WORKER, e);
  }

  lemma HookSettle(m: Memory, h: History, th: Thread, ch: Choice)
    requires HookGlobal(m, h) && HookLocal(m, h, WORKER, th)
    requires FinishGlobal(m, h) && FinishLocal(m, h, WORKER, th)
    requires JoinLocal(m, h, WORKER, th)
    requires th.lib == Out && InSettle(th.main) && h.stage.workerStarted.Yes?
    ensures HookStep(m, h, WORKER, SettleEffect(m, h, th.main, ch))
  {
    var e := SettleEffect(m, h, th.main, ch);
    assert HookGlobal(e.m, e.h);
    assert HookGuarantee(WORKER, m, h, e.m, e.h);
    assert HookLocal(e.m, e.h, WORKER, e.th);
  }

  lemma HookReleaseHook(m: Memory, h: History, th: Thread, ch: Choice)
    requires HookGlobal(m, h) && HookLocal(m, h, WORKER, th)
    requires FinishGlobal(m, h) && FinishLocal(m, h, WORKER, th)
    requires th.lib == Out && InRelease(th.main) && h.stage.workerStarted.Yes?
    requires th.main.WFinish?
    ensures HookStep(m, h, WORKER, ReleaseEffect(m, h, th.main, ch))
  {
    var e := ReleaseEffect(m, h, th.main, ch);
    assert HookGlobal(e.m, e.h);
    assert HookGuarantee(WORKER, m, h, e.m, e.h);
    assert HookLocal(e.m, e.h, WORKER, e.th);
  }

  lemma HookReleaseTake(m: Memory, h: History, th: Thread, ch: Choice)
    requires HookGlobal(m, h) && HookLocal(m, h, WORKER, th)
    requires FinishGlobal(m, h) && FinishLocal(m, h, WORKER, th)
    requires th.lib == Out && InRelease(th.main) && h.stage.workerStarted.Yes?
    requires !th.main.WFinish?
    ensures HookStep(m, h, WORKER, ReleaseEffect(m, h, th.main, ch))
  {
    var e := ReleaseEffect(m, h, th.main, ch);
    assert HookStep(m, h, WORKER, e);
  }

  lemma HookFinish(m: Memory, h: History, th: Thread, ch: Choice)
    requires HookGlobal(m, h) && HookLocal(m, h, WORKER, th)
    requires th.lib == Out && InFinish(th.main) && h.stage.workerStarted.Yes?
    ensures HookStep(m, h, WORKER, FinishEffect(m, h, th.main, ch))
  {
    var e := FinishEffect(m, h, th.main, ch);
    assert HookStep(m, h, WORKER, e);
  }

  lemma HookStart(m: Memory, h: History, t: nat, th: Thread, ch: Choice)
    requires HookGlobal(m, h) && HookLocal(m, h, t, th)
    requires t >= FIRST_CALLER && th == Thread(Out, Rest)
    ensures HookStep(m, h, t, StartEffect(m, h, ch))
  {
  }

  lemma HookShutdown(m: Memory, h: History, t: nat, th: Thread, parked: bool, ch: Choice)
    requires HookGlobal(m, h) && HookLocal(m, h, t, th)
    requires t >= FIRST_CALLER && th.lib == Out && InShutdown(th.main) && h.stage.exposed.Yes?
    ensures HookStep(m, h, t, ShutdownEffect(m, h, th.main, parked, ch))
  {
  }

  lemma HookVerdict(m: Memory, h: History, t: nat, th: Thread, ch: Choice)
    requires HookGlobal(m, h) && HookLocal(m, h, t, th)
    requires t >= FIRST_CALLER && th.lib == Out && InVerdict(th.main) && h.stage.exposed.Yes?
    ensures HookStep(m, h, t, VerdictEffect(m, h, th.main, ch))
  {
  }

  lemma HookOwner(m: Memory, h: History, t: nat, th: Thread)
    requires HookGlobal(m, h) && HookLocal(m, h, t, th)
    requires t >= FIRST_CALLER && th.lib == Out && InOwner(th.main) && h.stage.exposed.Yes?
    ensures HookStep(m, h, t, OwnerEffect(m, h, th.main))
  {
  }

  lemma HookAdmit(m: Memory, h: History, t: nat, th: Thread, ch: Choice)
    requires HookGlobal(m, h) && HookLocal(m, h, t, th)
    requires t >= FIRST_CALLER && th.lib == Out && InAdmit(th.main) && h.stage.exposed.Yes?
    ensures HookStep(m, h, t, AdmitEffect(m, h, t, th.main, ch))
  {
  }

  lemma HookCallback(m: Memory, h: History, t: nat, th: Thread, ch: Choice)
    requires HookGlobal(m, h) && HookLocal(m, h, t, th)
    requires t >= FIRST_CALLER && th.lib == Out && InCallback(th.main) && h.stage.exposed.Yes?
    ensures HookStep(m, h, t, CallbackEffect(m, h, t, th.main, ch))
  {
    var e := CallbackEffect(m, h, t, th.main, ch);
    assert HookStep(m, h, t, e);
  }

  lemma HookSubmission(m: Memory, h: History, t: nat, th: Thread)
    requires HookGlobal(m, h) && HookLocal(m, h, t, th)
    requires t >= FIRST_CALLER && th.lib == Out && InSubmission(th.main) && h.stage.exposed.Yes?
    ensures HookStep(m, h, t, SubmissionEffect(m, h, t, th.main))
  {
    var e := SubmissionEffect(m, h, t, th.main);
    assert HookStep(m, h, t, e);
  }

  lemma HookAwait(m: Memory, h: History, t: nat, th: Thread, parked: bool, ch: Choice)
    requires HookGlobal(m, h) && HookLocal(m, h, t, th)
    requires t >= FIRST_CALLER && th.lib == Out && InAwait(th.main) && h.stage.exposed.Yes?
    ensures HookStep(m, h, t, AwaitEffect(m, h, th.main, parked, ch))
  {
  }

  lemma HookSecond(m: Memory, h: History, t: nat, th: Thread, ch: Choice)
    requires HookGlobal(m, h) && HookLocal(m, h, t, th)
    requires t >= FIRST_CALLER && th.lib == Out && InSecond(th.main) && h.stage.exposed.Yes?
    ensures HookStep(m, h, t, SecondEffect(m, h, th.main, ch))
  {
  }

  lemma HookConclude(m: Memory, h: History, t: nat, th: Thread, ch: Choice)
    requires HookGlobal(m, h) && HookLocal(m, h, t, th)
    requires t >= FIRST_CALLER && th.lib == Out && InConclude(th.main) && h.stage.exposed.Yes?
    ensures HookStep(m, h, t, ConcludeEffect(m, h, t, th.main, ch))
  {
    var e := ConcludeEffect(m, h, t, th.main, ch);
    assert HookStep(m, h, t, e);
  }
}
