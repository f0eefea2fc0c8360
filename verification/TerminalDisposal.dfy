/**
 Tenth layer: the captures of the setup. Between the join and the release the
 worker disposes of them in order; a panic, or a retirement that had failed
 before, leaves every later capture and every owner of the release in place.
 */
module TerminalDisposal {
  import opened TerminalMemory
  import opened TerminalProtocol
  import opened TerminalRequest
  import opened TerminalFinish
  import opened TerminalJoin
  import opened TerminalHook
  import opened TerminalRelease

  /** Exactly the first `k` captures have left since the join. */
  predicate Retained(m: Memory, h: History, k: nat) {
    m.res.held == CapturesAfter(h.release.joined, k)
  }

  /** The request hook is in its slot, if it was ever registered and not yet the turn of `k`. */
  predicate RequestKept(m: Memory, k: nat) {
    m.ctl.request.Yes? <==> Registered(m) && k <= REQUEST_CAPTURE
  }

  /** The panic of destructor `k` left exactly the captures after it and all owners. */
  predicate DisposalStopped(m: Memory, h: History, k: nat) {
    k < CAPTURES && Retained(m, h, k + 1) && RequestKept(m, k + 1) && Panicked(h, OfCleanup)
  }

  predicate WorkerRetains(m: Memory, h: History, main: Main) {
    && (BeforeJoin(main) || main.WJoin? ==> RequestKept(m, 0))
    && (h.release.disposedAt.Some? ==>
          && DisposalStopped(m, h, h.release.disposedAt.value) && m.cell.retirementFailed.No?
          && (InFinish(main) || ((main.WTakeFinish? || main.WFinish?) && main.failed.Yes?)))
    && (AfterJoin(main) && m.cell.retirementFailed.Yes? ==> Retained(m, h, 0) && RequestKept(m, 0))
    && (main.WRetired? ==> Retained(m, h, 0) && RequestKept(m, 0))
    && (main.WDispose? ==>
          main.k < CAPTURES && Retained(m, h, main.k) && RequestKept(m, main.k) && m.cell.retirementFailed.No?)
    && ((main.WTakeFinish? || main.WFinish?) && main.failed.No? ==>
          Retained(m, h, CAPTURES) && m.cell.retirementFailed.No?)
    && (main.WRelease? || main.WOwners? || h.release.stoppedAt.Some? ==>
          h.release.atRelease == CapturesAfter(h.release.joined, CAPTURES))
    && ((main.WObserve? || main.WChecks?) && main.released.Yes? ==> m.cell.retirementFailed.No?)
    && (main.WRelease? || main.WOwners? ==> m.cell.retirementFailed.No?)
    && (h.release.stoppedAt.Some? ==> m.cell.retirementFailed.No?)
  }

  predicate DisposalLocal(m: Memory, h: History, t: nat, th: Thread) {
    t == WORKER ==> WorkerRetains(m, h, th.main)
  }

  predicate DisposalGuarantee(t: nat, m: Memory, h: History, m': Memory, h': History) {
    t != WORKER ==>
      && m'.cell.retirementFailed == m.cell.retirementFailed
      && (Panicked(h, OfCleanup) ==> Panicked(h', OfCleanup))
      && ((m'.ctl.request == m.ctl.request && (Registered(m') <==> Registered(m)))
          || (t == STARTUP && !Left(m) && m'.ctl.request.Yes? && Registered(m')))
  }

  predicate DisposalStep(m: Memory, h: History, t: nat, e: Effect) {
    && DisposalLocal(e.m, e.h, t, e.th)
    && DisposalGuarantee(t, m, h, e.m, e.h)
  }

  lemma DisposalStable(m: Memory, h: History, m': Memory, h': History, t: nat, u: nat, th: Thread)
    requires u != t && DisposalLocal(m, h, u, th) && DisposalGuarantee(t, m, h, m', h')
    requires ReleaseGuarantee(t, m, h, m', h') && ReleaseLocal(m, h, u, th) && ReleaseGlobal(m, h)
    requires FinishLocal(m, h, u, th) && JoinLocal(m, h, u, th)
    ensures DisposalLocal(m', h', u, th)
  {
  }

  lemma DisposalCommit(m: Memory, h: History, t: nat, th: Thread, ch: Choice)
    requires DisposalLocal(m, h, t, th)
    requires InCommit(th.lib)
    ensures DisposalStep(m, h, t, CommitEffect(m, h, t, th, ch))
  {
  }

  lemma DisposalRequest(m: Memory, h: History, t: nat, th: Thread, ch: Choice)
    requires DisposalLocal(m, h, t, th)
    requires RequestLocal(m, h, t, th)
    requires InRequest(th.lib)
    ensures DisposalStep(m, h, t, RequestEffect(m, h, t, th, ch))
  {
  }

  lemma DisposalHookPanic(m: Memory, h: History, t: nat, th: Thread)
    requires DisposalLocal(m, h, t, th)
    requires RequestLocal(m, h, t, th)
    requires InHookPanic(th.lib)
    ensures DisposalStep(m, h, t, HookPanicEffect(m, h, t, th))
  {
  }

  lemma DisposalMark(m: Memory, h: History, t: nat, th: Thread)
    requires DisposalLocal(m, h, t, th)
    requires InMark(th.lib)
    ensures DisposalStep(m, h, t, MarkEffect(m, h, th))
  {
  }

  lemma DisposalSchedule(m: Memory, h: History, t: nat, th: Thread, ch: Choice)
    requires DisposalLocal(m, h, t, th)
    requires FinishLocal(m, h, t, th)
    requires InSchedule(th.lib)
    ensures DisposalStep(m, h, t, ScheduleEffect(m, h, t, th, ch))
  {
  }

  lemma DisposalParse(m: Memory, h: History, th: Thread, ch: Choice)
    requires DisposalLocal(m, h, STARTUP, th)
    requires th.lib == Out && InParse(th.main)
    ensures DisposalStep(m, h, STARTUP, ParseEffect(m, h, th.main, ch))
  {
  }

  lemma DisposalFactory(m: Memory, h: History, th: Thread, ch: Choice)
    requires DisposalLocal(m, h, STARTUP, th)
    requires FinishGlobal(m, h) && FinishLocal(m, h, STARTUP, th)
    requires th.lib == Out && InFactory(th.main)
    ensures DisposalStep(m, h, STARTUP, FactoryEffect(m, h, th.main, ch))
  {
  }

  lemma DisposalAttach(m: Memory, h: History, th: Thread, ch: Choice)
    requires DisposalLocal(m, h, STARTUP, th)
    requires th.lib == Out && InAttach(th.main)
    ensures DisposalStep(m, h, STARTUP, AttachEffect(m, h, th.main, ch))
  {
  }

  lemma DisposalPublish(m: Memory, h: History, th: Thread)
    requires DisposalLocal(m, h, STARTUP, th)
    requires th.lib == Out && InPublish(th.main)
    ensures DisposalStep(m, h, STARTUP, PublishEffect(m, h, th.main))
  {
  }

  lemma DisposalTask(m: Memory, h: History, th: Thread, ch: Choice)
    requires DisposalLocal(m, h, TASK, th)
    requires th.lib == Out && h.stage.taskSpawned.Yes?
    ensures DisposalStep(m, h, TASK, TaskEffect(m, h, th.main, ch))
  {
  }

  lemma DisposalLoop(m: Memory, h: History, th: Thread, parked: bool, ch: Choice)
    requires DisposalLocal(m, h, WORKER, th)
    requires ReleaseLocal(m, h, WORKER, th)
    requires th.lib == Out && InLoop(th.main) && h.stage.workerStarted.Yes?
    ensures DisposalStep(m, h, WORKER, LoopEffect(m, h, th.main, parked, ch))
  {
    var e := LoopEffect(m, h, th.main, parked, ch);
    assert DisposalStep(m, h, WORKER, e);
  }

  lemma DisposalOperation(m: Memory, h: History, th: Thread, ch: Choice)
    requires DisposalLocal(m, h, WORKER, th)
    requires ReleaseLocal(m, h, WORKER, th)
    requires th.lib == Out && InOperation(th.main) && h.stage.workerStarted.Yes?
    ensures DisposalStep(m, h, WORKER, OperationEffect(m, h, th.main, ch))
  {
  }

  lemma DisposalClosure(m: Memory, h: History, th: Thread, ch: Choice)
    requires DisposalLocal(m, h, WORKER, th)
    requires ReleaseLocal(m, h, WORKER, th)
    requires th.lib == Out && InClosure(th.main) && h.stage.workerStarted.Yes?
    ensures DisposalStep(m, h, WORKER, ClosureEffect(m, h, th.main, ch))
  {
    var e := ClosureEffect(m, h, th.main, ch);
    assert DisposalStep(m, h, WORKER, e);
  }

  lemma DisposalParsed(m: Memory, h: History, th: Thread, ch: Choice)
    requires DisposalLocal(m, h, WORKER, th)
    requires ReleaseLocal(m, h, WORKER, th)
    requires th.lib == Out && InParsed(th.main) && h.stage.workerStarted.Yes?
    ensures DisposalStep(m, h, WORKER, ParsedEffect(m, h, th.main, ch))
  {
  }

  lemma DisposalSettleJoin(m: Memory, h: History, th: Thread, ch: Choice)
    requires DisposalLocal(m, h, WORKER, th)
    requires JoinGlobal(m, h) && JoinLocal(m, h, WORKER, th) && ReleaseLocal(m, h, WORKER, th)
    requires th.lib == Out && InSettle(th.main) && h.stage.workerStarted.Yes?
    requires th.main.WSettle? || th.main.WJoin?
    ensures DisposalStep(m, h, WORKER, SettleEffect(m, h, th.main, ch))
  {
    CapturesAfterTake(m.res.held);
  }

  lemma DisposalSettleDone(m: Memory, h: History, th: Thread, ch: Choice)
    requires DisposalLocal(m, h, WORKER, th)
    requires JoinGlobal(m, h) && JoinLocal(m, h, WORKER, th) && ReleaseLocal(m, h, WORKER, th)
    requires th.lib == Out && InSettle(th.main) && h.stage.workerStarted.Yes?
    requires !th.main.WSettle? && !th.main.WJoin?
    ensures DisposalStep(m, h, WORKER, SettleEffect(m, h, th.main, ch))
  {
    var e := SettleEffect(m, h, th.main, ch);
    CapturesAfterTake(h.release.joined);
    assert DisposalGuarantee(WORKER, m, h, e.m, e.h);
    assert DisposalLocal(e.m, e.h, WORKER, e.th);
  }

  lemma DisposalReleaseHook(m: Memory, h: History, th: Thread, ch: Choice)
    requires DisposalLocal(m, h, WORKER, th)
    requires HookLocal(m, h, WORKER, th) && JoinLocal(m, h, WORKER, th) && ReleaseLocal(m, h, WORKER, th)
    requires th.lib == Out && InRelease(th.main) && h.stage.workerStarted.Yes?
    requires th.main.WFinish? && th.main.hook.Yes?
    ensures DisposalStep(m, h, WORKER, ReleaseEffect(m, h, th.main, ch))
  {
    var e := ReleaseEffect(m, h, th.main, ch);
    assert DisposalGuarantee(WORKER, m, h, e.m, e.h);
    assert DisposalLocal(e.m, e.h, WORKER, e.th);
  }

  lemma DisposalReleaseUnhooked(m: Memory, h: History, th: Thread, ch: Choice)
    requires DisposalLocal(m, h, WORKER, th)
    requires HookLocal(m, h, WORKER, th) && JoinLocal(m, h, WORKER, th) && ReleaseLocal(m, h, WORKER, th)
    requires th.lib == Out && InRelease(th.main) && h.stage.workerStarted.Yes?
    requires th.main.WFinish? && th.main.hook.No?
    ensures DisposalStep(m, h, WORKER, ReleaseEffect(m, h, th.main, ch))
  {
  }

  lemma DisposalReleaseTake(m: Memory, h: History, th: Thread, ch: Choice)
    requires DisposalLocal(m, h, WORKER, th)
    requires HookLocal(m, h, WORKER, th) && JoinLocal(m, h, WORKER, th) && ReleaseLocal(m, h, WORKER, th)
    requires th.lib == Out && InRelease(th.main) && h.stage.workerStarted.Yes?
    requires !th.main.WFinish?
    ensures DisposalStep(m, h, WORKER, ReleaseEffect(m, h, th.main, ch))
  {
  }

  lemma DisposalFinish(m: Memory, h: History, th: Thread, ch: Choice)
    requires DisposalLocal(m, h, WORKER, th)
    requires ReleaseLocal(m, h, WORKER, th)
    requires th.lib == Out && InFinish(th.main) && h.stage.workerStarted.Yes?
    ensures DisposalStep(m, h, WORKER, FinishEffect(m, h, th.main, ch))
  {
    var e := FinishEffect(m, h, th.main, ch);
    assert DisposalStep(m, h, WORKER, e);
  }

  lemma DisposalStart(m: Memory, h: History, t: nat, th: Thread, ch: Choice)
    requires DisposalLocal(m, h, t, th)
    requires t >= FIRST_CALLER && th == Thread(Out, Rest)
    ensures DisposalStep(m, h, t, StartEffect(m, h, ch))
  {
  }

  lemma DisposalShutdown(m: Memory, h: History, t: nat, th: Thread, parked: bool, ch: Choice)
    requires DisposalLocal(m, h, t, th)
    requires t >= FIRST_CALLER && th.lib == Out && InShutdown(th.main) && h.stage.exposed.Yes?
    ensures DisposalStep(m, h, t, ShutdownEffect(m, h, th.main, parked, ch))
  {
  }

  lemma DisposalVerdict(m: Memory, h: History, t: nat, th: Thread, ch: Choice)
    requires DisposalLocal(m, h, t, th)
    requires t >= FIRST_CALLER && th.lib == Out && InVerdict(th.main) && h.stage.exposed.Yes?
    ensures DisposalStep(m, h, t, VerdictEffect(m, h, th.main, ch))
  {
  }

  lemma DisposalOwner(m: Memory, h: History, t: nat, th: Thread)
    requires DisposalLocal(m, h, t, th)
    requires t >= FIRST_CALLER && th.lib == Out && InOwner(th.main) && h.stage.exposed.Yes?
    ensures DisposalStep(m, h, t, OwnerEffect(m, h, th.main))
  {
  }

  lemma DisposalAdmit(m: Memory, h: History, t: nat, th: Thread, ch: Choice)
    requires DisposalLocal(m, h, t, th)
    requires t >= FIRST_CALLER && th.lib == Out && InAdmit(th.main) && h.stage.exposed.Yes?
    ensures DisposalStep(m, h, t, AdmitEffect(m, h, t, th.main, ch))
  {
  }

  lemma DisposalCallback(m: Memory, h: History, t: nat, th: Thread, ch: Choice)
    requires DisposalLocal(m, h, t, th)
    requires t >= FIRST_CALLER && th.lib == Out && InCallback(th.main) && h.stage.exposed.Yes?
    ensures DisposalStep(m, h, t, CallbackEffect(m, h, t, th.main, ch))
  {
  }

  lemma DisposalSubmission(m: Memory, h: History, t: nat, th: Thread)
    requires DisposalLocal(m, h, t, th)
    requires t >= FIRST_CALLER && th.lib == Out && InSubmission(th.main) && h.stage.exposed.Yes?
    ensures DisposalStep(m, h, t, SubmissionEffect(m, h, t, th.main))
  {
  }

  lemma DisposalAwait(m: Memory, h: History, t: nat, th: Thread, parked: bool, ch: Choice)
    requires DisposalLocal(m, h, t, th)
    requires t >= FIRST_CALLER && th.lib == Out && InAwait(th.main) && h.stage.exposed.Yes?
    ensures DisposalStep(m, h, t, AwaitEffect(m, h, th.main, parked, ch))
  {
  }

  lemma DisposalSecond(m: Memory, h: History, t: nat, th: Thread, ch: Choice)
    requires DisposalLocal(m, h, t, th)
    requires t >= FIRST_CALLER && th.lib == Out && InSecond(th.main) && h.stage.exposed.Yes?
    ensures DisposalStep(m, h, t, SecondEffect(m, h, th.main, ch))
  {
  }

  lemma DisposalConclude(m: Memory, h: History, t: nat, th: Thread, ch: Choice)
    requires DisposalLocal(m, h, t, th)
    requires t >= FIRST_CALLER && th.lib == Out && InConclude(th.main) && h.stage.exposed.Yes?
    ensures DisposalStep(m, h, t, ConcludeEffect(m, h, t, th.main, ch))
  {
  }
}
