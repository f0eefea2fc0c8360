/**
 Ninth layer: what the instance still holds. The worker empties the slots in a
 fixed order; a panic stops it with exactly a prefix gone, and a published
 physical stop means that every slot is empty and no SDK owner survives.
 */
module TerminalRelease {
  import opened Wrappers
  import opened TerminalMemory
  import opened TerminalProtocol
  import opened TerminalOrder
  import opened TerminalFinish
  import opened TerminalJoin

  /** The first `k` takes of dispose_setup are done; the third is the request hook. */
  predicate Disposed(m: Memory, k: nat) {
    && (k >= 1 ==> InitialFuture !in m.res.held)
    && (k >= 2 ==> Callback !in m.res.held)
    && (k >= 4 ==> ReinitFuture !in m.res.held)
  }

  /** Exactly the first `k` owners of the release order have left since the release began. */
  predicate Released(m: Memory, h: History, k: nat) {
    k <= RELEASES && m.res.held == LeftAfter(h.release.atRelease, k)
  }

  predicate Empty(m: Memory) {
    m.res.held == {} && m.res.owners == 0
  }

  predicate ReleaseGlobal(m: Memory, h: History) {
    && (h.runs.everStopped.Yes? ==> Left(m) && Joined(m, h) && Empty(m) && h.release.stoppedAt == None)
    && (h.release.stoppedAt.Some? ==> Left(m) && Joined(m, h) && Released(m, h, h.release.stoppedAt.value + 1))
  }

  predicate WorkerReleases(m: Memory, h: History, main: Main) {
    && (main.WDispose? ==> main.k <= 3 && Disposed(m, main.k))
    && ((main.WTakeFinish? || main.WFinish?) && main.failed.No? ==> Disposed(m, 4))
    && (main.WRelease? ==> main.k < RELEASES && Disposed(m, 4) && Released(m, h, main.k))
    && (main.WOwners? ==> Disposed(m, 4) && Released(m, h, RELEASES))
    && ((main.WObserve? || main.WChecks?) && main.released.Yes? ==> Empty(m) && h.release.stoppedAt == None)
    && (main.WFinal? && main.failedChecks.No? ==> Empty(m) && h.release.stoppedAt == None)
    && (h.release.stoppedAt.Some? ==> InFinish(main))
  }

  predicate ReleaseLocal(m: Memory, h: History, t: nat, th: Thread) {
    t == WORKER ==> WorkerReleases(m, h, th.main)
  }

  predicate ReleaseGuarantee(t: nat, m: Memory, h: History, m': Memory, h': History) {
    t != WORKER ==>
      && h'.release == h.release
      && (Left(m) && Joined(m, h) ==> m'.res.held == m.res.held && m'.res.owners <= m.res.owners)
  }

  predicate ReleaseStep(m: Memory, h: History, t: nat, e: Effect) {
    && ReleaseGlobal(e.m, e.h)
    && ReleaseLocal(e.m, e.h, t, e.th)
    && ReleaseGuarantee(t, m, h, e.m, e.h)
  }

  lemma ReleaseStable(m: Memory, h: History, m': Memory, h': History, t: nat, u: nat, th: Thread)
    requires u != t && ReleaseLocal(m, h, u, th) && ReleaseGuarantee(t, m, h, m', h')
    requires FinishLocal(m, h, u, th) && JoinLocal(m, h, u, th)
    ensures ReleaseLocal(m', h', u, th)
  {
  }

  /** After both takes and the join nothing is attached any more. */
  lemma NothingLeft(m: Memory, h: History)
    requires Joined(m, h) && Disposed(m, 4) && Released(m, h, RELEASES)
    ensures m.res.held == {}
  {
    forall r: Resource ensures r !in m.res.held {
      assert r in m.res.held ==> Rank(r) >= RELEASES;
    }
  }

  lemma ReleaseCommit(m: Memory, h: History, t: nat, th: Thread, ch: Choice)
    requires ReleaseGlobal(m, h) && ReleaseLocal(m, h, t, th)
    requires InCommit(th.lib)
    ensures ReleaseStep(m, h, t, CommitEffect(m, h, t, th, ch))
  {
    var e := CommitEffect(m, h, t, th, ch);
    assert ReleaseStep(m, h, t, e);
  }

  lemma ReleaseRequest(m: Memory, h: History, t: nat, th: Thread, ch: Choice)
    requires ReleaseGlobal(m, h) && ReleaseLocal(m, h, t, th)
    requires InRequest(th.lib)
    ensures ReleaseStep(m, h, t, RequestEffect(m, h, t, th, ch))
  {
  }

  lemma ReleaseHookPanic(m: Memory, h: History, t: nat, th: Thread)
    requires ReleaseGlobal(m, h) && ReleaseLocal(m, h, t, th)
    requires InHookPanic(th.lib)
    ensures ReleaseStep(m, h, t, HookPanicEffect(m, h, t, th))
  {
  }

  lemma ReleaseMark(m: Memory, h: History, t: nat, th: Thread)
    requires ReleaseGlobal(m, h) && ReleaseLocal(m, h, t, th)
    requires InMark(th.lib)
    ensures ReleaseStep(m, h, t, MarkEffect(m, h, th))
  {
  }

  lemma ReleaseSchedule(m: Memory, h: History, t: nat, th: Thread, ch: Choice)
    requires ReleaseGlobal(m, h) && ReleaseLocal(m, h, t, th)
    requires FinishLocal(m, h, t, th)
    requires InSchedule(th.lib)
    ensures ReleaseStep(m, h, t, ScheduleEffect(m, h, t, th, ch))
  {
  }

  lemma ReleaseParse(m: Memory, h: History, th: Thread, ch: Choice)
    requires ReleaseGlobal(m, h) && ReleaseLocal(m, h, STARTUP, th)
    requires FinishGlobal(m, h) && FinishLocal(m, h, STARTUP, th)
    requires th.lib == Out && InParse(th.main)
    ensures ReleaseStep(m, h, STARTUP, ParseEffect(m, h, th.main, ch))
  {
  }

  lemma ReleaseFactory(m: Memory, h: History, th: Thread, ch: Choice)
    requires ReleaseGlobal(m, h) && ReleaseLocal(m, h, STARTUP, th)
    requires FinishGlobal(m, h) && FinishLocal(m, h, STARTUP, th)
    requires th.lib == Out && InFactory(th.main)
    ensures ReleaseStep(m, h, STARTUP, FactoryEffect(m, h, th.main, ch))
  {
  }

  lemma ReleaseAttach(m: Memory, h: History, th: Thread, ch: Choice)
    requires ReleaseGlobal(m, h) && ReleaseLocal(m, h, STARTUP, th)
    requires FinishGlobal(m, h) && FinishLocal(m, h, STARTUP, th)
    requires th.lib == Out && InAttach(th.main)
    ensures ReleaseStep(m, h, STARTUP, AttachEffect(m, h, th.main, ch))
  {
  }

  lemma ReleasePublish(m: Memory, h: History, th: Thread)
    requires ReleaseGlobal(m, h) && ReleaseLocal(m, h, STARTUP, th)
    requires th.lib == Out && InPublish(th.main)
    ensures ReleaseStep(m, h, STARTUP, PublishEffect(m, h, th.main))
  {
  }

  lemma ReleaseTask(m: Memory, h: History, th: Thread, ch: Choice)
    requires ReleaseGlobal(m, h) && ReleaseLocal(m, h, TASK, th)
    requires JoinLocal(m, h, TASK, th)
    requires th.lib == Out && h.stage.taskSpawned.Yes?
    ensures ReleaseStep(m, h, TASK, TaskEffect(m, h, th.main, ch))
  {
  }

  lemma ReleaseLoop(m: Memory, h: History, th: Thread, parked: bool, ch: Choice)
    requires ReleaseGlobal(m, h) && ReleaseLocal(m, h, WORKER, th)
    requires th.lib == Out && InLoop(th.main) && h.stage.workerStarted.Yes?
    ensures ReleaseStep(m, h, WORKER, LoopEffect(m, h, th.main, parked, ch))
  {
  }

  lemma ReleaseOperation(m: Memory, h: History, th: Thread, ch: Choice)
    requires ReleaseGlobal(m, h) && ReleaseLocal(m, h, WORKER, th)
    requires th.lib == Out && InOperation(th.main) && h.stage.workerStarted.Yes?
    ensures ReleaseStep(m, h, WORKER, OperationEffect(m, h, th.main, ch))
  {
  }

  lemma ReleaseClosure(m: Memory, h: History, th: Thread, ch: Choice)
    requires ReleaseGlobal(m, h) && ReleaseLocal(m, h, WORKER, th)
    requires FinishGlobal(m, h) && FinishLocal(m, h, WORKER, th)
    requires th.lib == Out && InClosure(th.main) && h.stage.workerStarted.Yes?
    ensures ReleaseStep(m, h, WORKER, ClosureEffect(m, h, th.main, ch))
  {
  }

  lemma ReleaseParsed(m: Memory, h: History, th: Thread, ch: Choice)
    requires ReleaseGlobal(m, h) && ReleaseLocal(m, h, WORKER, th)
    requires FinishGlobal(m, h) && FinishLocal(m, h, WORKER, th)
    requires th.lib == Out && InParsed(th.main) && h.stage.workerStarted.Yes?
    ensures ReleaseStep(m, h, WORKER, ParsedEffect(m, h, th.main, ch))
  {
  }

  lemma ReleaseSettle(m: Memory, h: History, th: Thread, ch: Choice)
    requires ReleaseGlobal(m, h) && ReleaseLocal(m, h, WORKER, th)
    requires JoinLocal(m, h, WORKER, th)
    requires FinishGlobal(m, h) && FinishLocal(m, h, WORKER, th)
    requires th.lib == Out && InSettle(th.main) && h.stage.workerStarted.Yes?
    ensures ReleaseStep(m, h, WORKER, SettleEffect(m, h, th.main, ch))
  {
    var e := SettleEffect(m, h, th.main, ch);
    assert ReleaseGlobal(e.m, e.h);
    assert ReleaseGuarantee(WORKER, m, h, e.m, e.h);
    assert ReleaseLocal(e.m, e.h, WORKER, e.th);
  }

  lemma ReleaseReleaseHook(m: Memory, h: History, th: Thread, ch: Choice)
    requires ReleaseGlobal(m, h) && ReleaseLocal(m, h, WORKER, th)
    requires Joined(m, h)
    requires FinishGlobal(m, h) && FinishLocal(m, h, WORKER, th)
    requires th.lib == Out && InRelease(th.main) && h.stage.workerStarted.Yes?
    requires th.main.WFinish? && th.main.hook.Yes?
    ensures ReleaseStep(m, h, WORKER, ReleaseEffect(m, h, th.main, ch))
  {
    LeftAfterTake(m.res.held, 0);
  }

  lemma ReleaseReleaseUnhooked(m: Memory, h: History, th: Thread, ch: Choice)
    requires ReleaseGlobal(m, h) && ReleaseLocal(m, h, WORKER, th)
    requires Joined(m, h)
    requires FinishGlobal(m, h) && FinishLocal(m, h, WORKER, th)
    requires th.lib == Out && InRelease(th.main) && h.stage.workerStarted.Yes?
    requires th.main.WFinish? && th.main.hook.No?
    ensures ReleaseStep(m, h, WORKER, ReleaseEffect(m, h, th.main, ch))
  {
    LeftAfterTake(m.res.held, 0);
  }

  lemma ReleaseReleaseTake(m: Memory, h: History, th: Thread, ch: Choice)
    requires ReleaseGlobal(m, h) && ReleaseLocal(m, h, WORKER, th)
    requires Joined(m, h)
    requires FinishGlobal(m, h) && FinishLocal(m, h, WORKER, th)
    requires th.lib == Out && InRelease(th.main) && h.stage.workerStarted.Yes?
    requires !th.main.WFinish?
    ensures ReleaseStep(m, h, WORKER, ReleaseEffect(m, h, th.main, ch))
  {
    if th.main.WRelease? { LeftAfterTake(h.release.atRelease, th.main.k); }
    if th.main.WOwners? { NothingLeft(m, h); }
  }

  lemma ReleaseFinish(m: Memory, h: History, th: Thread, ch: Choice)
    requires ReleaseGlobal(m, h) && ReleaseLocal(m, h, WORKER, th)
    requires Joined(m, h)
    requires th.lib == Out && InFinish(th.main) && h.stage.workerStarted.Yes?
    ensures ReleaseStep(m, h, WORKER, FinishEffect(m, h, th.main, ch))
  {
  }

  lemma ReleaseStart(m: Memory, h: History, t: nat, th: Thread, ch: Choice)
    requires ReleaseGlobal(m, h) && ReleaseLocal(m, h, t, th)
    requires t >= FIRST_CALLER && th == Thread(Out, Rest)
    ensures ReleaseStep(m, h, t, StartEffect(m, h, ch))
  {
  }

  lemma ReleaseShutdown(m: Memory, h: History, t: nat, th: Thread, parked: bool, ch: Choice)
    requires ReleaseGlobal(m, h) && ReleaseLocal(m, h, t, th)
    requires t >= FIRST_CALLER && th.lib == Out && InShutdown(th.main) && h.stage.exposed.Yes?
    ensures ReleaseStep(m, h, t, ShutdownEffect(m, h, th.main, parked, ch))
  {
  }

  lemma ReleaseVerdict(m: Memory, h: History, t: nat, th: Thread, ch: Choice)
    requires ReleaseGlobal(m, h) && ReleaseLocal(m, h, t, th)
    requires t >= FIRST_CALLER && th.lib == Out && InVerdict(th.main) && h.stage.exposed.Yes?
    ensures ReleaseStep(m, h, t, VerdictEffect(m, h, th.main, ch))
  {
  }

  lemma ReleaseOwner(m: Memory, h: History, t: nat, th: Thread)
    requires ReleaseGlobal(m, h) && ReleaseLocal(m, h, t, th)
    requires t >= FIRST_CALLER && th.lib == Out && InOwner(th.main) && h.stage.exposed.Yes?
    ensures ReleaseStep(m, h, t, OwnerEffect(m, h, th.main))
  {
  }

  lemma ReleaseAdmit(m: Memory, h: History, t: nat, th: Thread, ch: Choice)
    requires ReleaseGlobal(m, h) && ReleaseLocal(m, h, t, th)
    requires t >= FIRST_CALLER && th.lib == Out && InAdmit(th.main) && h.stage.exposed.Yes?
    ensures ReleaseStep(m, h, t, AdmitEffect(m, h, t, th.main, ch))
  {
  }

  lemma ReleaseCallback(m: Memory, h: History, t: nat, th: Thread, ch: Choice)
    requires ReleaseGlobal(m, h) && ReleaseLocal(m, h, t, th)
    requires Active(th.main) ==> m.cell.activeReinit.Yes? && h.duty.reinitOwner == t
    requires FinishGlobal(m, h)
    requires t >= FIRST_CALLER && th.lib == Out && InCallback(th.main) && h.stage.exposed.Yes?
    ensures ReleaseStep(m, h, t, CallbackEffect(m, h, t, th.main, ch))
  {
  }

  lemma ReleaseSubmission(m: Memory, h: History, t: nat, th: Thread)
    requires ReleaseGlobal(m, h) && ReleaseLocal(m, h, t, th)
    requires t >= FIRST_CALLER && th.lib == Out && InSubmission(th.main) && h.stage.exposed.Yes?
    ensures ReleaseStep(m, h, t, SubmissionEffect(m, h, t, th.main))
  {
  }

  lemma ReleaseAwait(m: Memory, h: History, t: nat, th: Thread, parked: bool, ch: Choice)
    requires ReleaseGlobal(m, h) && ReleaseLocal(m, h, t, th)
    requires t >= FIRST_CALLER && th.lib == Out && InAwait(th.main) && h.stage.exposed.Yes?
    ensures ReleaseStep(m, h, t, AwaitEffect(m, h, th.main, parked, ch))
  {
  }

  lemma ReleaseSecond(m: Memory, h: History, t: nat, th: Thread, ch: Choice)
    requires ReleaseGlobal(m, h) && ReleaseLocal(m, h, t, th)
    requires t >= FIRST_CALLER && th.lib == Out && InSecond(th.main) && h.stage.exposed.Yes?
    ensures ReleaseStep(m, h, t, SecondEffect(m, h, th.main, ch))
  {
  }

  lemma ReleaseConclude(m: Memory, h: History, t: nat, th: Thread, ch: Choice)
    requires ReleaseGlobal(m, h) && ReleaseLocal(m, h, t, th)
    requires t >= FIRST_CALLER && th.lib == Out && InConclude(th.main) && h.stage.exposed.Yes?
    ensures ReleaseStep(m, h, t, ConcludeEffect(m, h, t, th.main, ch))
  {
  }
}
