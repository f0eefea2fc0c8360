/**
 Seventh layer: the initial setup task. A spawned task is held with the runtime
 that can join it; past the join it is over and can attach nothing more.
 */
module TerminalJoin {
  import opened Wrappers
  import opened TerminalMemory
  import opened TerminalProtocol
  import opened TerminalFinish

  /** A spawned setup task is still held to be joined. */
  predicate TaskHeld(m: Memory, h: History) {
    h.stage.taskSpawned.Yes? ==> InitialTask in m.res.held
  }

  /** The setup task was never spawned or has been joined. */
  predicate Joined(m: Memory, h: History) {
    InitialTask !in m.res.held && (h.stage.taskSpawned.Yes? ==> m.res.initialResult.Some?)
  }

  predicate JoinGlobal(m: Memory, h: History) {
    && (InitialTask in m.res.held ==> Runtime in m.res.held && h.stage.taskSpawned.Yes?)
    && (m.res.initialResult.Some? ==> h.stage.taskSpawned.Yes?)
  }

  predicate BeforeJoin(main: Main) {
    InLoop(main) || InOperation(main) || InClosure(main) || InParsed(main) || main.WSettle?
  }

  predicate AfterJoin(main: Main) {
    main.WRetired? || main.WDispose? || main.WTakeFinish? || main.WRestore? || InRelease(main) || InFinish(main)
  }

  /** Execution is always settled: the task is never kept for want of a runtime. */
  predicate Settles(main: Main) {
    match main
    case WRetired(settled) => settled.Yes?
    case WTakeFinish(settled, _) => settled.Yes?
    case WRestore(_) => false
    case _ => true
  }

  predicate WorkerJoins(m: Memory, h: History, main: Main) {
    && (BeforeJoin(main) ==> TaskHeld(m, h))
    && (main.WJoin? ==> InitialTask !in m.res.held && h.stage.taskSpawned.Yes?)
    && (AfterJoin(main) ==> Joined(m, h))
    && (BeforeJoin(main) || main.WJoin? || AfterJoin(main))
    && Settles(main)
  }

  /** In the loop with no operation in hand. */
  predicate BetweenOperations(main: Main) {
    main.WStart? || main.WLoop? || main.WWait? || main.WAckNotify?
  }

  predicate JoinLocal(m: Memory, h: History, t: nat, th: Thread) {
    && (t == WORKER ==> WorkerJoins(m, h, th.main))
    && (t == WORKER && BetweenOperations(th.main) ==> th.lib == Out)
    && (t == STARTUP && (th.main.STransport? || th.main.SCallback? || th.main.STask?) ==> Runtime in m.res.held)
    && (t == TASK && m.res.initialResult.Some? ==> th == Thread(Out, TGone))
  }

  predicate JoinGuarantee(t: nat, m: Memory, h: History, m': Memory, h': History) {
    && (t != WORKER ==> (InitialTask in m.res.held ==> InitialTask in m'.res.held))
    && (t != WORKER || !Left(m) ==> (Runtime in m.res.held ==> Runtime in m'.res.held))
    && (t != TASK || m.res.initialResult.Some? ==> m'.res.initialResult == m.res.initialResult)
    && ((h'.stage.taskSpawned == h.stage.taskSpawned && (InitialTask in m'.res.held ==> InitialTask in m.res.held))
        || (t == STARTUP && InitialTask in m'.res.held && !Left(m)))
    && (m.ctl.published.Yes? ==> h'.stage.taskSpawned == h.stage.taskSpawned)
  }

  predicate JoinStep(m: Memory, h: History, t: nat, e: Effect) {
    && JoinGlobal(e.m, e.h)
    && JoinLocal(e.m, e.h, t, e.th)
    && JoinGuarantee(t, m, h, e.m, e.h)
  }

  lemma JoinStable(m: Memory, h: History, m': Memory, h': History, t: nat, u: nat, th: Thread)
    requires u != t && JoinLocal(m, h, u, th) && JoinGuarantee(t, m, h, m', h')
    requires FinishGlobal(m, h) && FinishLocal(m, h, u, th)
    ensures JoinLocal(m', h', u, th)
  {
  }

  lemma JoinCommit(m: Memory, h: History, t: nat, th: Thread, ch: Choice)
    requires JoinGlobal(m, h) && JoinLocal(m, h, t, th)
    requires t == TASK ==> m.res.initialResult == None
    requires InCommit(th.lib)
    ensures JoinStep(m, h, t, CommitEffect(m, h, t, th, ch))
  {
  }

  lemma JoinRequest(m: Memory, h: History, t: nat, th: Thread, ch: Choice)
    requires JoinGlobal(m, h) && JoinLocal(m, h, t, th)
    requires t == TASK ==> m.res.initialResult == None
    requires InRequest(th.lib)
    ensures JoinStep(m, h, t, RequestEffect(m, h, t, th, ch))
  {
  }

  lemma JoinHookPanic(m: Memory, h: History, t: nat, th: Thread)
    requires JoinGlobal(m, h) && JoinLocal(m, h, t, th)
    requires t == TASK ==> m.res.initialResult == None
    requires InHookPanic(th.lib)
    ensures JoinStep(m, h, t, HookPanicEffect(m, h, t, th))
  {
  }

  lemma JoinMark(m: Memory, h: History, t: nat, th: Thread)
    requires JoinGlobal(m, h) && JoinLocal(m, h, t, th)
    requires t == TASK ==> m.res.initialResult == None
    requires InMark(th.lib)
    ensures JoinStep(m, h, t, MarkEffect(m, h, th))
  {
  }

  lemma JoinSchedule(m: Memory, h: History, t: nat, th: Thread, ch: Choice)
    requires JoinGlobal(m, h) && JoinLocal(m, h, t, th)
    requires t == TASK ==> m.res.initialResult == None
    requires InSchedule(th.lib)
    ensures JoinStep(m, h, t, ScheduleEffect(m, h, t, th, ch))
  {
  }

  lemma JoinParse(m: Memory, h: History, th: Thread, ch: Choice)
    requires JoinGlobal(m, h) && JoinLocal(m, h, STARTUP, th)
    requires th.lib == Out && InParse(th.main)
    ensures JoinStep(m, h, STARTUP, ParseEffect(m, h, th.main, ch))
  {
  }

  lemma JoinFactory(m: Memory, h: History, th: Thread, ch: Choice)
    requires JoinGlobal(m, h) && JoinLocal(m, h, STARTUP, th)
    requires th.lib == Out && InFactory(th.main)
    ensures JoinStep(m, h, STARTUP, FactoryEffect(m, h, th.main, ch))
  {
  }

  lemma JoinAttach(m: Memory, h: History, th: Thread, ch: Choice)
    requires JoinGlobal(m, h) && JoinLocal(m, h, STARTUP, th)
    requires FinishGlobal(m, h) && FinishLocal(m, h, STARTUP, th)
    requires th.lib == Out && InAttach(th.main)
    ensures JoinStep(m, h, STARTUP, AttachEffect(m, h, th.main, ch))
  {
  }

  lemma JoinPublish(m: Memory, h: History, th: Thread)
    requires JoinGlobal(m, h) && JoinLocal(m, h, STARTUP, th)
    requires th.lib == Out && InPublish(th.main)
    ensures JoinStep(m, h, STARTUP, PublishEffect(m, h, th.main))
  {
  }

  lemma JoinTask(m: Memory, h: History, th: Thread, ch: Choice)
    requires JoinGlobal(m, h) && JoinLocal(m, h, TASK, th)
    requires th.lib == Out && h.stage.taskSpawned.Yes?
    ensures JoinStep(m, h, TASK, TaskEffect(m, h, th.main, ch))
  {
  }

  lemma JoinLoop(m: Memory, h: History, th: Thread, parked: bool, ch: Choice)
    requires JoinGlobal(m, h) && JoinLocal(m, h, WORKER, th)
    requires th.lib == Out && InLoop(th.main) && h.stage.workerStarted.Yes?
    ensures JoinStep(m, h, WORKER, LoopEffect(m, h, th.main, parked, ch))
  {
    var e := LoopEffect(m, h, th.main, parked, ch);
    assert JoinStep(m, h, WORKER, e);
  }

  lemma JoinOperation(m: Memory, h: History, th: Thread, ch: Choice)
    requires JoinGlobal(m, h) && JoinLocal(m, h, WORKER, th)
    requires th.lib == Out && InOperation(th.main) && h.stage.workerStarted.Yes?
    ensures JoinStep(m, h, WORKER, OperationEffect(m, h, th.main, ch))
  {
    var e := OperationEffect(m, h, th.main, ch);
    assert JoinStep(m, h, WORKER, e);
  }

  lemma JoinClosure(m: Memory, h: History, th: Thread, ch: Choice)
    requires JoinGlobal(m, h) && JoinLocal(m, h, WORKER, th)
    requires th.lib == Out && InClosure(th.main) && h.stage.workerStarted.Yes?
    ensures JoinStep(m, h, WORKER, ClosureEffect(m, h, th.main, ch))
  {
    var e := ClosureEffect(m, h, th.main, ch);
    assert JoinStep(m, h, WORKER, e);
  }

  lemma JoinParsedProbe(m: Memory, h: History, th: Thread, ch: Choice)
    requires JoinGlobal(m, h) && JoinLocal(m, h, WORKER, th)
    requires th.lib == Out && InParsed(th.main) && h.stage.workerStarted.Yes?
    requires th.main.WParsed?
    ensures JoinStep(m, h, WORKER, ParsedEffect(m, h, th.main, ch))
  {
  }

  lemma JoinParsedBuild(m: Memory, h: History, th: Thread, ch: Choice)
    requires JoinGlobal(m, h) && JoinLocal(m, h, WORKER, th)
    requires th.lib == Out && InParsed(th.main) && h.stage.workerStarted.Yes?
    requires !th.main.WParsed?
    ensures JoinStep(m, h, WORKER, ParsedEffect(m, h, th.main, ch))
  {
    var e := ParsedEffect(m, h, th.main, ch);
    assert JoinStep(m, h, WORKER, e);
  }

  lemma JoinSettleJoin(m: Memory, h: History, th: Thread, ch: Choice)
    requires JoinGlobal(m, h) && JoinLocal(m, h, WORKER, th)
    requires Left(m)
    requires th.lib == Out && InSettle(th.main) && h.stage.workerStarted.Yes?
    requires th.main.WSettle? || th.main.WJoin?
    ensures JoinStep(m, h, WORKER, SettleEffect(m, h, th.main, ch))
  {
    var e := SettleEffect(m, h, th.main, ch);
    assert JoinStep(m, h, WORKER, e);
  }

  lemma JoinSettleDone(m: Memory, h: History, th: Thread, ch: Choice)
    requires JoinGlobal(m, h) && JoinLocal(m, h, WORKER, th)
    requires Left(m)
    requires th.lib == Out && InSettle(th.main) && h.stage.workerStarted.Yes?
    requires !th.main.WSettle? && !th.main.WJoin?
    ensures JoinStep(m, h, WORKER, SettleEffect(m, h, th.main, ch))
  {
    var e := SettleEffect(m, h, th.main, ch);
    assert JoinStep(m, h, WORKER, e);
  }

  lemma JoinReleaseHook(m: Memory, h: History, th: Thread, ch: Choice)
    requires JoinGlobal(m, h) && JoinLocal(m, h, WORKER, th)
    requires Left(m)
    requires th.lib == Out && InRelease(th.main) && h.stage.workerStarted.Yes?
    requires th.main.WFinish?
    ensures JoinStep(m, h, WORKER, ReleaseEffect(m, h, th.main, ch))
  {
    var e := ReleaseEffect(m, h, th.main, ch);
    assert JoinGlobal(e.m, e.h);
    assert JoinGuarantee(WORKER, m, h, e.m, e.h);
    assert JoinLocal(e.m, e.h, WORKER, e.th);
  }

  lemma JoinReleaseTake(m: Memory, h: History, th: Thread, ch: Choice)
    requires JoinGlobal(m, h) && JoinLocal(m, h, WORKER, th)
    requires Left(m)
    requires th.lib == Out && InRelease(th.main) && h.stage.workerStarted.Yes?
    requires !th.main.WFinish?
    ensures JoinStep(m, h, WORKER, ReleaseEffect(m, h, th.main, ch))
  {
  }

  lemma JoinFinish(m: Memory, h: History, th: Thread, ch: Choice)
    requires JoinGlobal(m, h) && JoinLocal(m, h, WORKER, th)
    requires Left(m)
    requires th.lib == Out && InFinish(th.main) && h.stage.workerStarted.Yes?
    ensures JoinStep(m, h, WORKER, FinishEffect(m, h, th.main, ch))
  {
    var e := FinishEffect(m, h, th.main, ch);
    assert JoinStep(m, h, WORKER, e);
  }

  lemma JoinStart(m: Memory, h: History, t: nat, th: Thread, ch: Choice)
    requires JoinGlobal(m, h) && JoinLocal(m, h, t, th)
    requires t >= FIRST_CALLER && th == Thread(Out, Rest)
    ensures JoinStep(m, h, t, StartEffect(m, h, ch))
  {
  }

  lemma JoinShutdown(m: Memory, h: History, t: nat, th: Thread, parked: bool, ch: Choice)
    requires JoinGlobal(m, h) && JoinLocal(m, h, t, th)
    requires t >= FIRST_CALLER && th.lib == Out && InShutdown(th.main) && h.stage.exposed.Yes?
    ensures JoinStep(m, h, t, ShutdownEffect(m, h, th.main, parked, ch))
  {
  }

  lemma JoinVerdict(m: Memory, h: History, t: nat, th: Thread, ch: Choice)
    requires JoinGlobal(m, h) && JoinLocal(m, h, t, th)
    requires t >= FIRST_CALLER && th.lib == Out && InVerdict(th.main) && h.stage.exposed.Yes?
    ensures JoinStep(m, h, t, VerdictEffect(m, h, th.main, ch))
  {
  }

  lemma JoinOwner(m: Memory, h: History, t: nat, th: Thread)
    requires JoinGlobal(m, h) && JoinLocal(m, h, t, th)
    requires t >= FIRST_CALLER && th.lib == Out && InOwner(th.main) && h.stage.exposed.Yes?
    ensures JoinStep(m, h, t, OwnerEffect(m, h, th.main))
  {
  }

  lemma JoinAdmit(m: Memory, h: History, t: nat, th: Thread, ch: Choice)
    requires JoinGlobal(m, h) && JoinLocal(m, h, t, th)
    requires t >= FIRST_CALLER && th.lib == Out && InAdmit(th.main) && h.stage.exposed.Yes?
    ensures JoinStep(m, h, t, AdmitEffect(m, h, t, th.main, ch))
  {
  }

  lemma JoinCallback(m: Memory, h: History, t: nat, th: Thread, ch: Choice)
    requires JoinGlobal(m, h) && JoinLocal(m, h, t, th)
    requires t >= FIRST_CALLER && th.lib == Out && InCallback(th.main) && h.stage.exposed.Yes?
    ensures JoinStep(m, h, t, CallbackEffect(m, h, t, th.main, ch))
  {
  }

  lemma JoinSubmission(m: Memory, h: History, t: nat, th: Thread)
    requires JoinGlobal(m, h) && JoinLocal(m, h, t, th)
    requires t >= FIRST_CALLER && th.lib == Out && InSubmission(th.main) && h.stage.exposed.Yes?
    ensures JoinStep(m, h, t, SubmissionEffect(m, h, t, th.main))
  {
  }

  lemma JoinAwait(m: Memory, h: History, t: nat, th: Thread, parked: bool, ch: Choice)
    requires JoinGlobal(m, h) && JoinLocal(m, h, t, th)
    requires t >= FIRST_CALLER && th.lib == Out && InAwait(th.main) && h.stage.exposed.Yes?
    ensures JoinStep(m, h, t, AwaitEffect(m, h, th.main, parked, ch))
  {
  }

  lemma JoinSecond(m: Memory, h: History, t: nat, th: Thread, ch: Choice)
    requires JoinGlobal(m, h) && JoinLocal(m, h, t, th)
    requires t >= FIRST_CALLER && th.lib == Out && InSecond(th.main) && h.stage.exposed.Yes?
    ensures JoinStep(m, h, t, SecondEffect(m, h, th.main, ch))
  {
  }

  lemma JoinConclude(m: Memory, h: History, t: nat, th: Thread, ch: Choice)
    requires JoinGlobal(m, h) && JoinLocal(m, h, t, th)
    requires t >= FIRST_CALLER && th.lib == Out && InConclude(th.main) && h.stage.exposed.Yes?
    ensures JoinStep(m, h, t, ConcludeEffect(m, h, t, th.main, ch))
  {
  }
}
