/**
 Sixth layer: uncertainty, the anchor and the published completion. They change
 only together, so a published success never coexists with doubt and doubt is
 always anchored.
 */
module TerminalAnchor {
  import opened Wrappers
  import opened TerminalMemory
  import opened TerminalProtocol
  import opened TerminalOrder
  import opened TerminalFinish

  predicate AnchorGlobal(m: Memory, h: History) {
    && (m.uncertain.Yes? ==> m.anchored.Yes?)
    && (m.ctl.completion == Some(PhysicallyStopped) ==>
          m.uncertain.No? && m.anchored.No? && h.runs.everStopped.Yes?)
    && (m.ctl.completion == Some(Uncertain) ==> m.uncertain.Yes?)
    && (m.anchored.No? ==> m.ctl.completion == Some(PhysicallyStopped) || h.stage.emptied.Yes?)
    && (h.runs.everStopped.Yes? ==> m.ctl.completion == Some(PhysicallyStopped) || m.uncertain.Yes?)
  }

  /** What a shutdown caller knows from the completion it read, and what the worker will publish. */
  predicate VerdictFits(m: Memory, h: History, main: Main) {
    && ((main.HSample? || main.HCheck?) && main.result == PhysicallyStopped ==> h.runs.everStopped.Yes?)
    && (main.HReturn? ==>
          (main.status == TB_OK && h.runs.everStopped.Yes?) || (main.status == TB_PANICKED && m.uncertain.Yes?))
    && (main.HMarkNotify? ==> m.uncertain.Yes?)
    && ((main.WObserve? || main.WChecks?) && main.released.Yes? ==> main.completed == PhysicallyStopped)
    && (main.WFinal? && main.failedChecks.No? ==> main.completed == PhysicallyStopped)
  }

  predicate AnchorLocal(m: Memory, h: History, t: nat, th: Thread) {
    VerdictFits(m, h, th.main)
  }

  /** Completion is published once and then only downgraded. */
  predicate CompletionMoves(c: Option<Completion>, c': Option<Completion>) {
    c' == c || c == None || (c == Some(PhysicallyStopped) && c' == Some(Uncertain))
  }

  predicate AnchorGuarantee(t: nat, m: Memory, h: History, m': Memory, h': History) {
    && (m.uncertain.Yes? ==> m'.uncertain.Yes?)
    && (h.runs.everStopped.Yes? ==> h'.runs.everStopped.Yes?)
    && CompletionMoves(m.ctl.completion, m'.ctl.completion)
  }

  predicate AnchorStep(m: Memory, h: History, t: nat, e: Effect) {
    && AnchorGlobal(e.m, e.h)
    && AnchorLocal(e.m, e.h, t, e.th)
    && AnchorGuarantee(t, m, h, e.m, e.h)
  }

  lemma AnchorStable(m: Memory, h: History, m': Memory, h': History, t: nat, u: nat, th: Thread)
    requires AnchorLocal(m, h, u, th) && AnchorGuarantee(t, m, h, m', h')
    ensures AnchorLocal(m', h', u, th)
  {
  }

  lemma AnchorCommit(m: Memory, h: History, t: nat, th: Thread, ch: Choice)
    requires AnchorGlobal(m, h) && AnchorLocal(m, h, t, th)
    requires InCommit(th.lib)
    ensures AnchorStep(m, h, t, CommitEffect(m, h, t, th, ch))
  {
  }

  lemma AnchorRequest(m: Memory, h: History, t: nat, th: Thread, ch: Choice)
    requires AnchorGlobal(m, h) && AnchorLocal(m, h, t, th)
    requires InRequest(th.lib)
    ensures AnchorStep(m, h, t, RequestEffect(m, h, t, th, ch))
  {
  }

  lemma AnchorHookPanic(m: Memory, h: History, t: nat, th: Thread)
    requires AnchorGlobal(m, h) && AnchorLocal(m, h, t, th)
    requires InHookPanic(th.lib)
    ensures AnchorStep(m, h, t, HookPanicEffect(m, h, t, th))
  {
  }

  lemma AnchorMark(m: Memory, h: History, t: nat, th: Thread)
    requires AnchorGlobal(m, h) && AnchorLocal(m, h, t, th)
    requires InMark(th.lib)
    ensures AnchorStep(m, h, t, MarkEffect(m, h, th))
  {
  }

  lemma AnchorSchedule(m: Memory, h: History, t: nat, th: Thread, ch: Choice)
    requires AnchorGlobal(m, h) && AnchorLocal(m, h, t, th)
    requires FinishGlobal(m, h) && FinishLocal(m, h, t, th)
    requires InSchedule(th.lib)
    ensures AnchorStep(m, h, t, ScheduleEffect(m, h, t, th, ch))
  {
  }

  lemma AnchorParse(m: Memory, h: History, th: Thread, ch: Choice)
    requires AnchorGlobal(m, h) && AnchorLocal(m, h, STARTUP, th)
    requires OrderLocal(m, h, STARTUP, th)
    requires th.lib == Out && InParse(th.main)
    ensures AnchorStep(m, h, STARTUP, ParseEffect(m, h, th.main, ch))
  {
  }

  lemma AnchorFactory(m: Memory, h: History, th: Thread, ch: Choice)
    requires AnchorGlobal(m, h) && AnchorLocal(m, h, STARTUP, th)
    requires th.lib == Out && InFactory(th.main)
    ensures AnchorStep(m, h, STARTUP, FactoryEffect(m, h, th.main, ch))
  {
  }

  lemma AnchorAttach(m: Memory, h: History, th: Thread, ch: Choice)
    requires AnchorGlobal(m, h) && AnchorLocal(m, h, STARTUP, th)
    requires th.lib == Out && InAttach(th.main)
    ensures AnchorStep(m, h, STARTUP, AttachEffect(m, h, th.main, ch))
  {
  }

  lemma AnchorPublish(m: Memory, h: History, th: Thread)
    requires AnchorGlobal(m, h) && AnchorLocal(m, h, STARTUP, th)
    requires th.lib == Out && InPublish(th.main)
    ensures AnchorStep(m, h, STARTUP, PublishEffect(m, h, th.main))
  {
  }

  lemma AnchorTaskEnds(m: Memory, h: History, th: Thread, ch: Choice)
    requires AnchorGlobal(m, h) && AnchorLocal(m, h, TASK, th)
    requires th.lib == Out && h.stage.taskSpawned.Yes?
    requires th.main.THandshake? || th.main.TPoll?
    ensures AnchorStep(m, h, TASK, TaskEffect(m, h, th.main, ch))
  {
  }

  lemma AnchorTaskSetup(m: Memory, h: History, th: Thread, ch: Choice)
    requires AnchorGlobal(m, h) && AnchorLocal(m, h, TASK, th)
    requires th.lib == Out && h.stage.taskSpawned.Yes?
    requires th.main.TSetup?
    ensures AnchorStep(m, h, TASK, TaskEffect(m, h, th.main, ch))
  {
  }

  lemma AnchorTaskSets(m: Memory, h: History, th: Thread, ch: Choice)
    requires AnchorGlobal(m, h) && AnchorLocal(m, h, TASK, th)
    requires th.lib == Out && h.stage.taskSpawned.Yes?
    requires !th.main.THandshake? && !th.main.TPoll? && !th.main.TSetup?
    ensures AnchorStep(m, h, TASK, TaskEffect(m, h, th.main, ch))
  {
    var e := TaskEffect(m, h, th.main, ch);
    assert AnchorStep(m, h, TASK, e);
  }

  lemma AnchorLoop(m: Memory, h: History, th: Thread, parked: bool, ch: Choice)
    requires AnchorGlobal(m, h) && AnchorLocal(m, h, WORKER, th)
    requires th.lib == Out && InLoop(th.main) && h.stage.workerStarted.Yes?
    ensures AnchorStep(m, h, WORKER, LoopEffect(m, h, th.main, parked, ch))
  {
  }

  lemma AnchorOperation(m: Memory, h: History, th: Thread, ch: Choice)
    requires AnchorGlobal(m, h) && AnchorLocal(m, h, WORKER, th)
    requires th.lib == Out && InOperation(th.main) && h.stage.workerStarted.Yes?
    ensures AnchorStep(m, h, WORKER, OperationEffect(m, h, th.main, ch))
  {
  }

  lemma AnchorClosure(m: Memory, h: History, th: Thread, ch: Choice)
    requires AnchorGlobal(m, h) && AnchorLocal(m, h, WORKER, th)
    requires th.lib == Out && InClosure(th.main) && h.stage.workerStarted.Yes?
    ensures AnchorStep(m, h, WORKER, ClosureEffect(m, h, th.main, ch))
  {
  }

  lemma AnchorParsed(m: Memory, h: History, th: Thread, ch: Choice)
    requires AnchorGlobal(m, h) && AnchorLocal(m, h, WORKER, th)
    requires th.lib == Out && InParsed(th.main) && h.stage.workerStarted.Yes?
    ensures AnchorStep(m, h, WORKER, ParsedEffect(m, h, th.main, ch))
  {
  }

  lemma AnchorSettle(m: Memory, h: History, th: Thread, ch: Choice)
    requires AnchorGlobal(m, h) && AnchorLocal(m, h, WORKER, th)
    requires th.lib == Out && InSettle(th.main) && h.stage.workerStarted.Yes?
    ensures AnchorStep(m, h, WORKER, SettleEffect(m, h, th.main, ch))
  {
    var e := SettleEffect(m, h, th.main, ch);
    assert AnchorStep(m, h, WORKER, e);
  }

  lemma AnchorRelease(m: Memory, h: History, th: Thread, ch: Choice)
    requires AnchorGlobal(m, h) && AnchorLocal(m, h, WORKER, th)
    requires th.lib == Out && InRelease(th.main) && h.stage.workerStarted.Yes?
    ensures AnchorStep(m, h, WORKER, ReleaseEffect(m, h, th.main, ch))
  {
    var e := ReleaseEffect(m, h, th.main, ch);
    assert AnchorStep(m, h, WORKER, e);
  }

  lemma AnchorFinish(m: Memory, h: History, th: Thread, ch: Choice)
    requires AnchorGlobal(m, h) && AnchorLocal(m, h, WORKER, th)
    requires FinishGlobal(m, h) && FinishLocal(m, h, WORKER, th)
    requires th.lib == Out && InFinish(th.main) && h.stage.workerStarted.Yes?
    ensures AnchorStep(m, h, WORKER, FinishEffect(m, h, th.main, ch))
  {
  }

  lemma AnchorStart(m: Memory, h: History, t: nat, th: Thread, ch: Choice)
    requires AnchorGlobal(m, h) && AnchorLocal(m, h, t, th)
    requires t >= FIRST_CALLER && th == Thread(Out, Rest)
    ensures AnchorStep(m, h, t, StartEffect(m, h, ch))
  {
  }

  lemma AnchorShutdown(m: Memory, h: History, t: nat, th: Thread, parked: bool, ch: Choice)
    requires AnchorGlobal(m, h) && AnchorLocal(m, h, t, th)
    requires t >= FIRST_CALLER && th.lib == Out && InShutdown(th.main) && h.stage.exposed.Yes?
    ensures AnchorStep(m, h, t, ShutdownEffect(m, h, th.main, parked, ch))
  {
  }

  lemma AnchorVerdict(m: Memory, h: History, t: nat, th: Thread, ch: Choice)
    requires AnchorGlobal(m, h) && AnchorLocal(m, h, t, th)
    requires t >= FIRST_CALLER && th.lib == Out && InVerdict(th.main) && h.stage.exposed.Yes?
    ensures AnchorStep(m, h, t, VerdictEffect(m, h, th.main, ch))
  {
  }

  lemma AnchorOwner(m: Memory, h: History, t: nat, th: Thread)
    requires AnchorGlobal(m, h) && AnchorLocal(m, h, t, th)
    requires t >= FIRST_CALLER && th.lib == Out && InOwner(th.main) && h.stage.exposed.Yes?
    ensures AnchorStep(m, h, t, OwnerEffect(m, h, th.main))
  {
  }

  lemma AnchorAdmit(m: Memory, h: History, t: nat, th: Thread, ch: Choice)
    requires AnchorGlobal(m, h) && AnchorLocal(m, h, t, th)
    requires t >= FIRST_CALLER && th.lib == Out && InAdmit(th.main) && h.stage.exposed.Yes?
    ensures AnchorStep(m, h, t, AdmitEffect(m, h, t, th.main, ch))
  {
  }

  lemma AnchorCallback(m: Memory, h: History, t: nat, th: Thread, ch: Choice)
    requires AnchorGlobal(m, h) && AnchorLocal(m, h, t, th)
    requires t >= FIRST_CALLER && th.lib == Out && InCallback(th.main) && h.stage.exposed.Yes?
    ensures AnchorStep(m, h, t, CallbackEffect(m, h, t, th.main, ch))
  {
  }

  lemma AnchorSubmission(m: Memory, h: History, t: nat, th: Thread)
    requires AnchorGlobal(m, h) && AnchorLocal(m, h, t, th)
    requires t >= FIRST_CALLER && th.lib == Out && InSubmission(th.main) && h.stage.exposed.Yes?
    ensures AnchorStep(m, h, t, SubmissionEffect(m, h, t, th.main))
  {
  }

  lemma AnchorAwait(m: Memory, h: History, t: nat, th: Thread, parked: bool, ch: Choice)
    requires AnchorGlobal(m, h) && AnchorLocal(m, h, t, th)
    requires t >= FIRST_CALLER && th.lib == Out && InAwait(th.main) && h.stage.exposed.Yes?
    ensures AnchorStep(m, h, t, AwaitEffect(m, h, th.main, parked, ch))
  {
  }

  lemma AnchorSecond(m: Memory, h: History, t: nat, th: Thread, ch: Choice)
    requires AnchorGlobal(m, h) && AnchorLocal(m, h, t, th)
    requires t >= FIRST_CALLER && th.lib == Out && InSecond(th.main) && h.stage.exposed.Yes?
    ensures AnchorStep(m, h, t, SecondEffect(m, h, th.main, ch))
  {
  }

  lemma AnchorConclude(m: Memory, h: History, t: nat, th: Thread, ch: Choice)
    requires AnchorGlobal(m, h) && AnchorLocal(m, h, t, th)
    requires t >= FIRST_CALLER && th.lib == Out && InConclude(th.main) && h.stage.exposed.Yes?
    ensures AnchorStep(m, h, t, ConcludeEffect(m, h, t, th.main, ch))
  {
  }
}
