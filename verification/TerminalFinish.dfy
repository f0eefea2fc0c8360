/**
 Third layer: the physical worker. It is submitted once, it leaves its loop only
 on a terminal instance with nobody else left to run, and from then on nothing
 can be admitted again.
 */
module TerminalFinish {
  import opened Wrappers
  import opened TerminalMemory
  import opened TerminalProtocol
  import opened TerminalOrder
  import opened TerminalRequest

  /** The worker has left its reinitialization loop. */
  predicate Left(m: Memory) {
    m.ctl.finishState == FinishRunning || m.ctl.finishState == Complete
  }

  predicate LoopFrame(main: Main) {
    InLoop(main) || InOperation(main) || InClosure(main) || InParsed(main)
  }

  predicate FinishFrame(main: Main) {
    InSettle(main) || InRelease(main) || InFinish(main)
  }

  /** A rejected worker spawn, from the recorded failure to its commit. */
  predicate InRejection(lib: Lib) {
    match lib
    case RejectNotify => true
    case HostFault(_, w) => w.ByReject?
    case LoadReason(_, w) => w.ByReject?
    case SwapReason(_, w, _) => w.ByReject?
    case _ => false
  }

  predicate FinishGlobal(m: Memory, h: History) {
    && (m.ctl.completion.Some? <==> m.ctl.finishState == Complete || m.ctl.finishState == SpawnFailed)
    && (m.ctl.finishState == SpawnFailed ==> m.ctl.completion == Some(Uncertain) && h.stage.workerStarted.No?)
    && (h.stage.workerStarted.Yes? ==> m.ctl.finishState == Submitted || Left(m))
    && (Left(m) ==>
          && h.stage.workerStarted.Yes? && m.ctl.published.Yes? && Terminal(m)
          && m.cell.operation == None && m.cell.activeReinit.No?
          && m.ctl.requestState != RequestIdle && m.ctl.requestState != RequestRunning)
    && (m.ctl.finishState != FinishIdle && m.ctl.requestState == Unregistered ==> Terminal(m))
    && (m.ctl.finishState == SpawnFailed && !Terminal(m) ==>
          m.cell.activeReinit.Yes? && h.duty.reinitOwner == h.duty.spawner)
  }

  predicate FinishLocal(m: Memory, h: History, t: nat, th: Thread) {
    && (th.lib.Spawn? || th.lib.Reject? <==>
          m.ctl.finishState == Submitted && h.stage.workerStarted.No? && h.duty.spawner == t)
    && (InRejection(th.lib) ==> m.ctl.finishState == SpawnFailed)
    && (m.ctl.finishState == SpawnFailed && !Terminal(m) && h.duty.spawner == t ==> InRejection(th.lib))
    && (t == WORKER && th.main != WStart ==> h.stage.workerStarted.Yes?)
    && (t == WORKER && LoopFrame(th.main) && th.main != WStart ==> m.ctl.finishState == Submitted)
    && (t == WORKER ==> (FinishFrame(th.main) <==> Left(m)))
    && (t == WORKER ==> (th.main.WNotify? || th.main.WEnd? <==> m.ctl.finishState == Complete))
    && (t == STARTUP && m.ctl.published.Yes? ==> th.main.SPublishNotify? || th.main.SPublished? || th.main.SEnd?)
  }

  /** The only ways the finish state moves. */
  predicate FinishMoves(t: nat, m: Memory, h: History, m': Memory, h': History) {
    var (f, f') := (m.ctl.finishState, m'.ctl.finishState);
    || f' == f
    || (f == FinishIdle && f' == Submitted && h'.duty.spawner == t && h.stage.workerStarted.No?)
    || (f == Submitted && f' == SpawnFailed && h.duty.spawner == t && h.stage.workerStarted.No?)
    || (t == WORKER && h.stage.workerStarted.Yes? && f == Submitted && f' == FinishRunning)
    || (t == WORKER && f == FinishRunning && f' == Complete)
  }

  predicate FinishGuarantee(t: nat, m: Memory, h: History, m': Memory, h': History) {
    && FinishMoves(t, m, h, m', h')
    && (h'.duty.spawner == h.duty.spawner || (h'.duty.spawner == t && m.ctl.finishState == FinishIdle))
    && (h'.stage.workerStarted == h.stage.workerStarted
        || (m.ctl.finishState == Submitted && h.duty.spawner == t && h'.stage.workerStarted.Yes?
            && m'.ctl.finishState == Submitted))
    && (t != STARTUP ==> m'.ctl.published == m.ctl.published)
    && (Terminal(m) ==> Terminal(m'))
    && (t != WORKER && Terminal(m) && WorkerMayLeave(m) ==> WorkerMayLeave(m'))
  }

  predicate FinishStep(m: Memory, h: History, t: nat, e: Effect) {
    && FinishGlobal(e.m, e.h)
    && FinishLocal(e.m, e.h, t, e.th)
    && FinishGuarantee(t, m, h, e.m, e.h)
  }

  lemma FinishStable(m: Memory, h: History, m': Memory, h': History, t: nat, u: nat, th: Thread)
    requires u != t && FinishGlobal(m, h) && FinishLocal(m, h, u, th) && FinishGuarantee(t, m, h, m', h')
    ensures FinishLocal(m', h', u, th)
  {
  }

  lemma FinishCommit(m: Memory, h: History, t: nat, th: Thread, ch: Choice)
    requires FinishGlobal(m, h) && FinishLocal(m, h, t, th)
    requires InCommit(th.lib)
    ensures FinishStep(m, h, t, CommitEffect(m, h, t, th, ch))
  {
    var e := CommitEffect(m, h, t, th, ch);
    assert FinishStep(m, h, t, e);
  }

  lemma FinishRequest(m: Memory, h: History, t: nat, th: Thread, ch: Choice)
    requires FinishGlobal(m, h) && FinishLocal(m, h, t, th)
    requires RequestLocal(m, h, t, th)
    requires InRequest(th.lib)
    ensures FinishStep(m, h, t, RequestEffect(m, h, t, th, ch))
  {
    var e := RequestEffect(m, h, t, th, ch);
    assert FinishStep(m, h, t, e);
  }

  lemma FinishHookPanic(m: Memory, h: History, t: nat, th: Thread)
    requires FinishGlobal(m, h) && FinishLocal(m, h, t, th)
    requires RequestLocal(m, h, t, th)
    requires InHookPanic(th.lib)
    ensures FinishStep(m, h, t, HookPanicEffect(m, h, t, th))
  {
  }

  lemma FinishMark(m: Memory, h: History, t: nat, th: Thread)
    requires FinishGlobal(m, h) && FinishLocal(m, h, t, th)
    requires InMark(th.lib)
    ensures FinishStep(m, h, t, MarkEffect(m, h, th))
  {
  }

  lemma FinishSchedule(m: Memory, h: History, t: nat, th: Thread, ch: Choice)
    requires FinishGlobal(m, h) && FinishLocal(m, h, t, th)
    requires OrderLocal(m, h, t, th)
    requires Submitter(t, th.main) ==>
      m.cell.activeReinit.Yes? && h.duty.reinitOwner == t && m.ctl.requestState != Unregistered
    requires InSchedule(th.lib)
    ensures FinishStep(m, h, t, ScheduleEffect(m, h, t, th, ch))
  {
  }

  lemma FinishParse(m: Memory, h: History, th: Thread, ch: Choice)
    requires FinishGlobal(m, h) && FinishLocal(m, h, STARTUP, th)
    requires th.lib == Out && InParse(th.main)
    ensures FinishStep(m, h, STARTUP, ParseEffect(m, h, th.main, ch))
  {
  }

  lemma FinishFactory(m: Memory, h: History, th: Thread, ch: Choice)
    requires FinishGlobal(m, h) && FinishLocal(m, h, STARTUP, th)
    requires th.lib == Out && InFactory(th.main)
    ensures FinishStep(m, h, STARTUP, FactoryEffect(m, h, th.main, ch))
  {
  }

  lemma FinishAttach(m: Memory, h: History, th: Thread, ch: Choice)
    requires FinishGlobal(m, h) && FinishLocal(m, h, STARTUP, th)
    requires th.lib == Out && InAttach(th.main)
    ensures FinishStep(m, h, STARTUP, AttachEffect(m, h, th.main, ch))
  {
    var e := AttachEffect(m, h, th.main, ch);
    assert e.m.ctl == m.ctl && e.m.reason == m.reason && e.h.stage.workerStarted == h.stage.workerStarted
      && e.h.duty == h.duty;
    assert FinishStep(m, h, STARTUP, e);
  }

  lemma FinishPublish(m: Memory, h: History, th: Thread)
    requires FinishGlobal(m, h) && FinishLocal(m, h, STARTUP, th)
    requires th.lib == Out && InPublish(th.main)
    ensures FinishStep(m, h, STARTUP, PublishEffect(m, h, th.main))
  {
  }

  lemma FinishTaskEnds(m: Memory, h: History, th: Thread, ch: Choice)
    requires FinishGlobal(m, h) && FinishLocal(m, h, TASK, th)
    requires th.lib == Out && h.stage.taskSpawned.Yes?
    requires th.main.THandshake? || th.main.TPoll?
    ensures FinishStep(m, h, TASK, TaskEffect(m, h, th.main, ch))
  {
  }

  lemma FinishTaskSets(m: Memory, h: History, th: Thread, ch: Choice)
    requires FinishGlobal(m, h) && FinishLocal(m, h, TASK, th)
    requires th.lib == Out && h.stage.taskSpawned.Yes?
    requires !th.main.THandshake? && !th.main.TPoll?
    ensures FinishStep(m, h, TASK, TaskEffect(m, h, th.main, ch))
  {
    var e := TaskEffect(m, h, th.main, ch);
    assert e.m.ctl == m.ctl && e.m.reason == m.reason && e.h.stage.workerStarted == h.stage.workerStarted
      && e.h.duty == h.duty;
    assert FinishStep(m, h, TASK, e);
  }

  lemma FinishLoop(m: Memory, h: History, th: Thread, parked: bool, ch: Choice)
    requires FinishGlobal(m, h) && FinishLocal(m, h, WORKER, th)
    requires RequestGlobal(m, h)
    requires th.lib == Out && InLoop(th.main) && h.stage.workerStarted.Yes?
    ensures FinishStep(m, h, WORKER, LoopEffect(m, h, th.main, parked, ch))
  {
    var e := LoopEffect(m, h, th.main, parked, ch);
    assert FinishStep(m, h, WORKER, e);
  }

  lemma FinishOperation(m: Memory, h: History, th: Thread, ch: Choice)
    requires FinishGlobal(m, h) && FinishLocal(m, h, WORKER, th)
    requires th.lib == Out && InOperation(th.main) && h.stage.workerStarted.Yes?
    ensures FinishStep(m, h, WORKER, OperationEffect(m, h, th.main, ch))
  {
    var e := OperationEffect(m, h, th.main, ch);
    assert !FinishFrame(e.th.main) && e.m.ctl == m.ctl && e.h.stage == h.stage && e.h.duty == h.duty;
    assert FinishStep(m, h, WORKER, e);
  }

  lemma FinishClosure(m: Memory, h: History, th: Thread, ch: Choice)
    requires FinishGlobal(m, h) && FinishLocal(m, h, WORKER, th)
    requires th.lib == Out && InClosure(th.main) && h.stage.workerStarted.Yes?
    ensures FinishStep(m, h, WORKER, ClosureEffect(m, h, th.main, ch))
  {
    var e := ClosureEffect(m, h, th.main, ch);
    assert !FinishFrame(e.th.main) && LoopFrame(e.th.main);
    assert e.m.ctl == m.ctl && e.m.reason == m.reason;
    assert FinishStep(m, h, WORKER, e);
  }

  lemma FinishParsed(m: Memory, h: History, th: Thread, ch: Choice)
    requires FinishGlobal(m, h) && FinishLocal(m, h, WORKER, th)
    requires th.lib == Out && InParsed(th.main) && h.stage.workerStarted.Yes?
    ensures FinishStep(m, h, WORKER, ParsedEffect(m, h, th.main, ch))
  {
    var e := ParsedEffect(m, h, th.main, ch);
    assert FinishMoves(WORKER, m, h, e.m, e.h) && !FinishFrame(e.th.main);
    assert FinishStep(m, h, WORKER, e);
  }

  lemma FinishSettleJoin(m: Memory, h: History, th: Thread, ch: Choice)
    requires FinishGlobal(m, h) && FinishLocal(m, h, WORKER, th)
    requires th.lib == Out && InSettle(th.main) && h.stage.workerStarted.Yes?
    requires th.main.WSettle? || th.main.WJoin?
    ensures FinishStep(m, h, WORKER, SettleEffect(m, h, th.main, ch))
  {
    var e := SettleEffect(m, h, th.main, ch);
    assert e.m.ctl == m.ctl && e.m.reason == m.reason && e.h.stage.workerStarted == h.stage.workerStarted
      && e.h.duty == h.duty;
    assert FinishStep(m, h, WORKER, e);
  }

  lemma FinishSettleDone(m: Memory, h: History, th: Thread, ch: Choice)
    requires FinishGlobal(m, h) && FinishLocal(m, h, WORKER, th)
    requires th.lib == Out && InSettle(th.main) && h.stage.workerStarted.Yes?
    requires !th.main.WSettle? && !th.main.WJoin?
    ensures FinishStep(m, h, WORKER, SettleEffect(m, h, th.main, ch))
  {
    var e := SettleEffect(m, h, th.main, ch);
    assert FinishStep(m, h, WORKER, e);
  }

  lemma FinishReleaseHook(m: Memory, h: History, th: Thread, ch: Choice)
    requires FinishGlobal(m, h) && FinishLocal(m, h, WORKER, th)
    requires th.lib == Out && InRelease(th.main) && h.stage.workerStarted.Yes?
    requires th.main.WFinish? && th.main.hook.Yes?
    ensures FinishStep(m, h, WORKER, ReleaseEffect(m, h, th.main, ch))
  {
    var e := ReleaseEffect(m, h, th.main, ch);
    assert e.m == m && e.h.stage == h.stage && e.h.duty == h.duty && FinishFrame(e.th.main);
    assert FinishStep(m, h, WORKER, e);
  }

  lemma FinishReleaseUnhooked(m: Memory, h: History, th: Thread, ch: Choice)
    requires FinishGlobal(m, h) && FinishLocal(m, h, WORKER, th)
    requires th.lib == Out && InRelease(th.main) && h.stage.workerStarted.Yes?
    requires th.main.WFinish? && th.main.hook.No?
    ensures FinishStep(m, h, WORKER, ReleaseEffect(m, h, th.main, ch))
  {
    var e := ReleaseEffect(m, h, th.main, ch);
    assert e.m.ctl == m.ctl && e.m.reason == m.reason && e.h.stage.workerStarted == h.stage.workerStarted
      && e.h.duty == h.duty;
    assert FinishStep(m, h, WORKER, e);
  }

  lemma FinishReleaseTake(m: Memory, h: History, th: Thread, ch: Choice)
    requires FinishGlobal(m, h) && FinishLocal(m, h, WORKER, th)
    requires th.lib == Out && InRelease(th.main) && h.stage.workerStarted.Yes?
    requires !th.main.WFinish?
    ensures FinishStep(m, h, WORKER, ReleaseEffect(m, h, th.main, ch))
  {
    var e := ReleaseEffect(m, h, th.main, ch);
    assert e.m.ctl == m.ctl && e.m.reason == m.reason && e.h.stage.workerStarted == h.stage.workerStarted
      && e.h.duty == h.duty;
    assert FinishStep(m, h, WORKER, e);
  }

  lemma FinishFinish(m: Memory, h: History, th: Thread, ch: Choice)
    requires FinishGlobal(m, h) && FinishLocal(m, h, WORKER, th)
    requires th.lib == Out && InFinish(th.main) && h.stage.workerStarted.Yes?
    ensures FinishStep(m, h, WORKER, FinishEffect(m, h, th.main, ch))
  {
    var e := FinishEffect(m, h, th.main, ch);
    assert FinishGlobal(e.m, e.h);
    assert FinishGuarantee(WORKER, m, h, e.m, e.h);
    assert FinishLocal(e.m, e.h, WORKER, e.th);
  }

  lemma FinishStart(m: Memory, h: History, t: nat, th: Thread, ch: Choice)
    requires FinishGlobal(m, h) && FinishLocal(m, h, t, th)
    requires t >= FIRST_CALLER && th == Thread(Out, Rest)
    ensures FinishStep(m, h, t, StartEffect(m, h, ch))
  {
  }

  lemma FinishShutdown(m: Memory, h: History, t: nat, th: Thread, parked: bool, ch: Choice)
    requires FinishGlobal(m, h) && FinishLocal(m, h, t, th)
    requires t >= FIRST_CALLER && th.lib == Out && InShutdown(th.main) && h.stage.exposed.Yes?
    ensures FinishStep(m, h, t, ShutdownEffect(m, h, th.main, parked, ch))
  {
    var e := ShutdownEffect(m, h, th.main, parked, ch);
    assert FinishStep(m, h, t, e);
  }

  lemma FinishVerdict(m: Memory, h: History, t: nat, th: Thread, ch: Choice)
    requires FinishGlobal(m, h) && FinishLocal(m, h, t, th)
    requires t >= FIRST_CALLER && th.lib == Out && InVerdict(th.main) && h.stage.exposed.Yes?
    ensures FinishStep(m, h, t, VerdictEffect(m, h, th.main, ch))
  {
    var e := VerdictEffect(m, h, th.main, ch);
    assert FinishStep(m, h, t, e);
  }

  lemma FinishOwner(m: Memory, h: History, t: nat, th: Thread)
    requires FinishGlobal(m, h) && FinishLocal(m, h, t, th)
    requires t >= FIRST_CALLER && th.lib == Out && InOwner(th.main) && h.stage.exposed.Yes?
    ensures FinishStep(m, h, t, OwnerEffect(m, h, th.main))
  {
    var e := OwnerEffect(m, h, th.main);
    assert FinishStep(m, h, t, e);
  }

  lemma FinishAdmit(m: Memory, h: History, t: nat, th: Thread, ch: Choice)
    requires FinishGlobal(m, h) && FinishLocal(m, h, t, th)
    requires Active(th.main) ==> m.cell.activeReinit.Yes? && h.duty.reinitOwner == t
    requires t >= FIRST_CALLER && th.lib == Out && InAdmit(th.main) && h.stage.exposed.Yes?
    ensures FinishStep(m, h, t, AdmitEffect(m, h, t, th.main, ch))
  {
    var e := AdmitEffect(m, h, t, th.main, ch);
    assert FinishGlobal(e.m, e.h);
    assert FinishGuarantee(t, m, h, e.m, e.h);
    assert FinishLocal(e.m, e.h, t, e.th);
  }

  lemma FinishCallback(m: Memory, h: History, t: nat, th: Thread, ch: Choice)
    requires FinishGlobal(m, h) && FinishLocal(m, h, t, th)
    requires Active(th.main) ==> m.cell.activeReinit.Yes? && h.duty.reinitOwner == t
    requires t >= FIRST_CALLER && th.lib == Out && InCallback(th.main) && h.stage.exposed.Yes?
    ensures FinishStep(m, h, t, CallbackEffect(m, h, t, th.main, ch))
  {
    var e := CallbackEffect(m, h, t, th.main, ch);
    assert e.m.ctl == m.ctl && e.m.reason == m.reason && e.h.stage.workerStarted == h.stage.workerStarted
      && e.h.duty == h.duty;
    assert FinishStep(m, h, t, e);
  }

  lemma FinishSubmission(m: Memory, h: History, t: nat, th: Thread)
    requires FinishGlobal(m, h) && FinishLocal(m, h, t, th)
    requires Active(th.main) ==> m.cell.activeReinit.Yes? && h.duty.reinitOwner == t
    requires t >= FIRST_CALLER && th.lib == Out && InSubmission(th.main) && h.stage.exposed.Yes?
    ensures FinishStep(m, h, t, SubmissionEffect(m, h, t, th.main))
  {
    var e := SubmissionEffect(m, h, t, th.main);
    assert FinishStep(m, h, t, e);
  }

  lemma FinishAwait(m: Memory, h: History, t: nat, th: Thread, parked: bool, ch: Choice)
    requires FinishGlobal(m, h) && FinishLocal(m, h, t, th)
    requires Active(th.main) ==> m.cell.activeReinit.Yes? && h.duty.reinitOwner == t
    requires t >= FIRST_CALLER && th.lib == Out && InAwait(th.main) && h.stage.exposed.Yes?
    ensures FinishStep(m, h, t, AwaitEffect(m, h, th.main, parked, ch))
  {
  }

  lemma FinishSecond(m: Memory, h: History, t: nat, th: Thread, ch: Choice)
    requires FinishGlobal(m, h) && FinishLocal(m, h, t, th)
    requires Active(th.main) ==> m.cell.activeReinit.Yes? && h.duty.reinitOwner == t
    requires t >= FIRST_CALLER && th.lib == Out && InSecond(th.main) && h.stage.exposed.Yes?
    ensures FinishStep(m, h, t, SecondEffect(m, h, th.main, ch))
  {
    var e := SecondEffect(m, h, th.main, ch);
    assert FinishStep(m, h, t, e);
  }

  lemma FinishConclude(m: Memory, h: History, t: nat, th: Thread, ch: Choice)
    requires FinishGlobal(m, h) && FinishLocal(m, h, t, th)
    requires Active(th.main) ==> m.cell.activeReinit.Yes? && h.duty.reinitOwner == t
    requires t >= FIRST_CALLER && th.lib == Out && InConclude(th.main) && h.stage.exposed.Yes?
    ensures FinishStep(m, h, t, ConcludeEffect(m, h, t, th.main, ch))
  {
    var e := ConcludeEffect(m, h, t, th.main, ch);
    assert FinishStep(m, h, t, e);
  }
}
