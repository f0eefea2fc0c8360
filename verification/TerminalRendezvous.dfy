/**
 Fifth layer: the reinitialization rendezvous. What the owner waits for is
 queued, being executed, or acknowledged with the code of its own closure; and
 once a terminal cause is committed at most one more operation is taken.
 */
module TerminalRendezvous {
  import opened Wrappers
  import opened TerminalMemory
  import opened TerminalProtocol
  import opened TerminalOrder
  import opened TerminalFinish
  import opened TerminalReinit

  predicate UsedBelow(h: History, o: Option<Operation>) {
    o.Some? && o.value.Construct? ==> o.value.id < h.ops.nextOperation
  }

  predicate Unanswered(h: History, o: Option<Operation>) {
    o.Some? && o.value.Construct? ==> h.ops.answerOf != Some(o.value.id)
  }

  predicate RendezvousGlobal(m: Memory, h: History) {
    && (m.cell.operation.Some? ==> m.cell.priorPending.Yes? && h.ops.executing == None)
    && (h.ops.executing.Some? ==>
          m.cell.priorPending.Yes? && m.ctl.finishState == Submitted && h.stage.workerStarted.Yes?)
    && (ReinitMustWait(m) ==> m.cell.activeReinit.Yes? && (m.cell.operation.Some? || h.ops.executing.Some?))
    && UsedBelow(h, m.cell.operation) && UsedBelow(h, h.ops.executing) && Unanswered(h, m.cell.operation)
    && (h.ops.answerOf.Some? ==> h.ops.answerOf.value < h.ops.nextOperation)
    && (h.ops.lateOperations > 0 ==> h.ops.lateOperations == 1 && Terminal(m) && m.cell.operation == None)
  }

  /** `o` is queued or being executed. */
  predicate Outstanding(m: Memory, h: History, o: Operation) {
    m.cell.operation == Some(o) || h.ops.executing == Some(o)
  }

  /** The recorded code is the one closure `id` returned. */
  predicate Answered(m: Memory, h: History, id: nat) {
    h.ops.answerOf == Some(id) && h.ops.answer == m.cell.constructionCode
  }

  /** What the owner of the rendezvous sees while the worker has not been rejected. */
  predicate OwnerFits(m: Memory, h: History, main: Main) {
    && (m.cell.priorPending.Yes? ==> Waiting(main))
    && (main.RRetireNotify? || main.RRetireWait? ==> m.cell.priorPending.Yes? ==> Outstanding(m, h, Retire))
    && (main.RConstructNotify? || main.RConstructWait? ==>
          if m.cell.priorPending.Yes? then Outstanding(m, h, Construct(main.id)) else Answered(m, h, main.id))
  }

  /** The owner may still submit an operation even if a terminal cause arrives now. */
  predicate MaySubmit(main: Main) {
    InCallback(main) || main.RRetire? || main.RConstruct?
  }

  predicate InConstruction(main: Main) {
    main.WConstructCheck? || main.WParsed? || main.WParsedCheck?
  }

  predicate WorkerFits(h: History, main: Main) {
    && (main.WExec? ==> h.ops.executing == Some(main.operation) && Unanswered(h, h.ops.executing))
    && (InConstruction(main) ==> h.ops.executing == Some(Construct(main.id)) && Unanswered(h, h.ops.executing))
    && (main.WAck? ==> h.ops.executing.Some? && Settled(h, h.ops.executing.value, main.code))
    && (h.ops.executing.Some? ==> main.WExec? || InConstruction(main) || main.WAck?)
  }

  predicate Settled(h: History, o: Operation, code: int) {
    o.Construct? ==> h.ops.answerOf == Some(o.id) && h.ops.answer == code
  }

  predicate RendezvousLocal(m: Memory, h: History, t: nat, th: Thread) {
    && (t >= FIRST_CALLER && Active(th.main) && m.ctl.finishState != SpawnFailed ==> OwnerFits(m, h, th.main))
    && (t >= FIRST_CALLER && h.ops.lateOperations > 0 ==> !MaySubmit(th.main))
    && (t == WORKER ==> WorkerFits(h, th.main))
  }

  /** What the worker does to the rendezvous: nothing, record a code, take the operation, acknowledge it. */
  predicate WorkerMoves(m: Memory, h: History, m': Memory, h': History) {
    var (c, c') := (m.cell, m'.cell);
    || (c' == c && h'.ops == h.ops)
    || (c' == c && h.ops.executing.Some? && h.ops.executing.value.Construct? && Unanswered(h, h.ops.executing)
        && h'.ops == h.ops.(answerOf := Some(h.ops.executing.value.id), answer := h'.ops.answer))
    || (c.operation.Some? && c' == c.(operation := None)
        && h'.ops == h.ops.(executing := c.operation, lateOperations := h'.ops.lateOperations))
    || (h.ops.executing.Some? && c'.priorPending.No? && c'.operation == None && h'.ops == h.ops.(executing := None)
        && Settled(h', h.ops.executing.value, c'.constructionCode))
  }

  predicate RendezvousGuarantee(t: nat, m: Memory, h: History, m': Memory, h': History) {
    && (m.ctl.finishState == SpawnFailed ==> m'.ctl.finishState == SpawnFailed)
    && (t == WORKER ==> WorkerMoves(m, h, m', h'))
    && (t != WORKER ==> h'.ops == h.ops.(nextOperation := h'.ops.nextOperation))
    && (t != WORKER && !(m.cell.activeReinit.Yes? && h.duty.reinitOwner == t) ==>
          && m'.cell.operation == m.cell.operation && m'.cell.priorPending == m.cell.priorPending
          && m'.cell.constructionCode == m.cell.constructionCode)
  }

  predicate RendezvousStep(m: Memory, h: History, t: nat, e: Effect) {
    && RendezvousGlobal(e.m, e.h)
    && RendezvousLocal(e.m, e.h, t, e.th)
    && RendezvousGuarantee(t, m, h, e.m, e.h)
  }

  lemma RendezvousStable(m: Memory, h: History, m': Memory, h': History, t: nat, u: nat, th: Thread)
    requires RendezvousGlobal(m, h) && RendezvousLocal(m, h, u, th) && RendezvousGuarantee(t, m, h, m', h')
    requires u != t && ReinitLocal(m, h, u, th)
    requires t == WORKER ==> m.ctl.finishState != SpawnFailed
    ensures RendezvousLocal(m', h', u, th)
  {
  }

  lemma RendezvousCommit(m: Memory, h: History, t: nat, th: Thread, ch: Choice)
    requires RendezvousGlobal(m, h) && RendezvousLocal(m, h, t, th)
    requires InCommit(th.lib)
    ensures RendezvousStep(m, h, t, CommitEffect(m, h, t, th, ch))
  {
    var e := CommitEffect(m, h, t, th, ch);
    assert RendezvousStep(m, h, t, e);
  }

  lemma RendezvousRequest(m: Memory, h: History, t: nat, th: Thread, ch: Choice)
    requires RendezvousGlobal(m, h) && RendezvousLocal(m, h, t, th)
    requires InRequest(th.lib)
    ensures RendezvousStep(m, h, t, RequestEffect(m, h, t, th, ch))
  {
    var e := RequestEffect(m, h, t, th, ch);
    assert e.m.cell == m.cell && e.h.ops == h.ops;
    assert RendezvousStep(m, h, t, e);
  }

  lemma RendezvousHookPanic(m: Memory, h: History, t: nat, th: Thread)
    requires RendezvousGlobal(m, h) && RendezvousLocal(m, h, t, th)
    requires InHookPanic(th.lib)
    ensures RendezvousStep(m, h, t, HookPanicEffect(m, h, t, th))
  {
  }

  lemma RendezvousMark(m: Memory, h: History, t: nat, th: Thread)
    requires RendezvousGlobal(m, h) && RendezvousLocal(m, h, t, th)
    requires InMark(th.lib)
    ensures RendezvousStep(m, h, t, MarkEffect(m, h, th))
  {
  }

  lemma RendezvousSchedule(m: Memory, h: History, t: nat, th: Thread, ch: Choice)
    requires RendezvousGlobal(m, h) && RendezvousLocal(m, h, t, th)
    requires FinishLocal(m, h, t, th)
    requires InSchedule(th.lib)
    ensures RendezvousStep(m, h, t, ScheduleEffect(m, h, t, th, ch))
  {
    var e := ScheduleEffect(m, h, t, th, ch);
    assert RendezvousStep(m, h, t, e);
  }

  lemma RendezvousParse(m: Memory, h: History, th: Thread, ch: Choice)
    requires RendezvousGlobal(m, h) && RendezvousLocal(m, h, STARTUP, th)
    requires th.lib == Out && InParse(th.main)
    ensures RendezvousStep(m, h, STARTUP, ParseEffect(m, h, th.main, ch))
  {
  }

  lemma RendezvousFactory(m: Memory, h: History, th: Thread, ch: Choice)
    requires RendezvousGlobal(m, h) && RendezvousLocal(m, h, STARTUP, th)
    requires th.lib == Out && InFactory(th.main)
    ensures RendezvousStep(m, h, STARTUP, FactoryEffect(m, h, th.main, ch))
  {
  }

  lemma RendezvousAttach(m: Memory, h: History, th: Thread, ch: Choice)
    requires RendezvousGlobal(m, h) && RendezvousLocal(m, h, STARTUP, th)
    requires th.lib == Out && InAttach(th.main)
    ensures RendezvousStep(m, h, STARTUP, AttachEffect(m, h, th.main, ch))
  {
    var e := AttachEffect(m, h, th.main, ch);
    assert RendezvousStep(m, h, STARTUP, e);
  }

  lemma RendezvousPublish(m: Memory, h: History, th: Thread)
    requires RendezvousGlobal(m, h) && RendezvousLocal(m, h, STARTUP, th)
    requires th.lib == Out && InPublish(th.main)
    ensures RendezvousStep(m, h, STARTUP, PublishEffect(m, h, th.main))
  {
  }

  lemma RendezvousTask(m: Memory, h: History, th: Thread, ch: Choice)
    requires RendezvousGlobal(m, h) && RendezvousLocal(m, h, TASK, th)
    requires th.lib == Out && h.stage.taskSpawned.Yes?
    ensures RendezvousStep(m, h, TASK, TaskEffect(m, h, th.main, ch))
  {
    var e := TaskEffect(m, h, th.main, ch);
    assert e.m.cell == m.cell && e.h.ops == h.ops;
    assert RendezvousStep(m, h, TASK, e);
  }

  lemma RendezvousLoop(m: Memory, h: History, th: Thread, parked: bool, ch: Choice)
    requires RendezvousGlobal(m, h) && RendezvousLocal(m, h, WORKER, th)
    requires FinishLocal(m, h, WORKER, th)
    requires th.lib == Out && InLoop(th.main) && h.stage.workerStarted.Yes?
    ensures RendezvousStep(m, h, WORKER, LoopEffect(m, h, th.main, parked, ch))
  {
    var e := LoopEffect(m, h, th.main, parked, ch);
    assert RendezvousGlobal(e.m, e.h);
    assert RendezvousGuarantee(WORKER, m, h, e.m, e.h);
    assert RendezvousLocal(e.m, e.h, WORKER, e.th);
  }

  lemma RendezvousOperation(m: Memory, h: History, th: Thread, ch: Choice)
    requires RendezvousGlobal(m, h) && RendezvousLocal(m, h, WORKER, th)
    requires th.lib == Out && InOperation(th.main) && h.stage.workerStarted.Yes?
    ensures RendezvousStep(m, h, WORKER, OperationEffect(m, h, th.main, ch))
  {
    var e := OperationEffect(m, h, th.main, ch);
    assert RendezvousStep(m, h, WORKER, e);
  }

  lemma RendezvousClosure(m: Memory, h: History, th: Thread, ch: Choice)
    requires RendezvousGlobal(m, h) && RendezvousLocal(m, h, WORKER, th)
    requires th.lib == Out && InClosure(th.main) && h.stage.workerStarted.Yes?
    ensures RendezvousStep(m, h, WORKER, ClosureEffect(m, h, th.main, ch))
  {
  }

  lemma RendezvousParsed(m: Memory, h: History, th: Thread, ch: Choice)
    requires RendezvousGlobal(m, h) && RendezvousLocal(m, h, WORKER, th)
    requires th.lib == Out && InParsed(th.main) && h.stage.workerStarted.Yes?
    ensures RendezvousStep(m, h, WORKER, ParsedEffect(m, h, th.main, ch))
  {
  }

  lemma RendezvousSettle(m: Memory, h: History, th: Thread, ch: Choice)
    requires RendezvousGlobal(m, h) && RendezvousLocal(m, h, WORKER, th)
    requires th.lib == Out && InSettle(th.main) && h.stage.workerStarted.Yes?
    ensures RendezvousStep(m, h, WORKER, SettleEffect(m, h, th.main, ch))
  {
    var e := SettleEffect(m, h, th.main, ch);
    assert e.m.cell == m.cell && e.h.ops == h.ops;
    assert RendezvousStep(m, h, WORKER, e);
  }

  lemma RendezvousRelease(m: Memory, h: History, th: Thread, ch: Choice)
    requires RendezvousGlobal(m, h) && RendezvousLocal(m, h, WORKER, th)
    requires th.lib == Out && InRelease(th.main) && h.stage.workerStarted.Yes?
    ensures RendezvousStep(m, h, WORKER, ReleaseEffect(m, h, th.main, ch))
  {
    var e := ReleaseEffect(m, h, th.main, ch);
    assert e.m.cell == m.cell && e.h.ops == h.ops;
    assert RendezvousStep(m, h, WORKER, e);
  }

  lemma RendezvousFinish(m: Memory, h: History, th: Thread, ch: Choice)
    requires RendezvousGlobal(m, h) && RendezvousLocal(m, h, WORKER, th)
    requires FinishLocal(m, h, WORKER, th)
    requires th.lib == Out && InFinish(th.main) && h.stage.workerStarted.Yes?
    ensures RendezvousStep(m, h, WORKER, FinishEffect(m, h, th.main, ch))
  {
    var e := FinishEffect(m, h, th.main, ch);
    assert RendezvousStep(m, h, WORKER, e);
  }

  lemma RendezvousStart(m: Memory, h: History, t: nat, th: Thread, ch: Choice)
    requires RendezvousGlobal(m, h) && RendezvousLocal(m, h, t, th)
    requires t >= FIRST_CALLER && th == Thread(Out, Rest)
    ensures RendezvousStep(m, h, t, StartEffect(m, h, ch))
  {
  }

  lemma RendezvousShutdown(m: Memory, h: History, t: nat, th: Thread, parked: bool, ch: Choice)
    requires RendezvousGlobal(m, h) && RendezvousLocal(m, h, t, th)
    requires t >= FIRST_CALLER && th.lib == Out && InShutdown(th.main) && h.stage.exposed.Yes?
    ensures RendezvousStep(m, h, t, ShutdownEffect(m, h, th.main, parked, ch))
  {
    var e := ShutdownEffect(m, h, th.main, parked, ch);
    assert RendezvousStep(m, h, t, e);
  }

  lemma RendezvousVerdict(m: Memory, h: History, t: nat, th: Thread, ch: Choice)
    requires RendezvousGlobal(m, h) && RendezvousLocal(m, h, t, th)
    requires t >= FIRST_CALLER && th.lib == Out && InVerdict(th.main) && h.stage.exposed.Yes?
    ensures RendezvousStep(m, h, t, VerdictEffect(m, h, th.main, ch))
  {
    var e := VerdictEffect(m, h, th.main, ch);
    assert RendezvousStep(m, h, t, e);
  }

  lemma RendezvousOwner(m: Memory, h: History, t: nat, th: Thread)
    requires RendezvousGlobal(m, h) && RendezvousLocal(m, h, t, th)
    requires t >= FIRST_CALLER && th.lib == Out && InOwner(th.main) && h.stage.exposed.Yes?
    ensures RendezvousStep(m, h, t, OwnerEffect(m, h, th.main))
  {
    var e := OwnerEffect(m, h, th.main);
    assert RendezvousStep(m, h, t, e);
  }

  lemma RendezvousAdmit(m: Memory, h: History, t: nat, th: Thread, ch: Choice)
    requires RendezvousGlobal(m, h) && RendezvousLocal(m, h, t, th)
    requires Active(th.main) ==> m.cell.activeReinit.Yes? && h.duty.reinitOwner == t
    requires t >= FIRST_CALLER && th.lib == Out && InAdmit(th.main) && h.stage.exposed.Yes?
    ensures RendezvousStep(m, h, t, AdmitEffect(m, h, t, th.main, ch))
  {
    var e := AdmitEffect(m, h, t, th.main, ch);
    assert RendezvousGlobal(e.m, e.h);
    assert RendezvousGuarantee(t, m, h, e.m, e.h);
    assert RendezvousLocal(e.m, e.h, t, e.th);
  }

  lemma RendezvousCallback(m: Memory, h: History, t: nat, th: Thread, ch: Choice)
    requires RendezvousGlobal(m, h) && RendezvousLocal(m, h, t, th)
    requires Active(th.main) ==> m.cell.activeReinit.Yes? && h.duty.reinitOwner == t
    requires t >= FIRST_CALLER && th.lib == Out && InCallback(th.main) && h.stage.exposed.Yes?
    ensures RendezvousStep(m, h, t, CallbackEffect(m, h, t, th.main, ch))
  {
    var e := CallbackEffect(m, h, t, th.main, ch);
    assert RendezvousStep(m, h, t, e);
  }

  lemma RendezvousSubmission(m: Memory, h: History, t: nat, th: Thread)
    requires RendezvousGlobal(m, h) && RendezvousLocal(m, h, t, th)
    requires FinishGlobal(m, h)
    requires Active(th.main) ==> m.cell.activeReinit.Yes? && h.duty.reinitOwner == t
    requires t >= FIRST_CALLER && th.lib == Out && InSubmission(th.main) && h.stage.exposed.Yes?
    ensures RendezvousStep(m, h, t, SubmissionEffect(m, h, t, th.main))
  {
    var e := SubmissionEffect(m, h, t, th.main);
    assert RendezvousStep(m, h, t, e);
  }

  lemma RendezvousAwait(m: Memory, h: History, t: nat, th: Thread, parked: bool, ch: Choice)
    requires RendezvousGlobal(m, h) && RendezvousLocal(m, h, t, th)
    requires FinishGlobal(m, h)
    requires Active(th.main) ==> m.cell.activeReinit.Yes? && h.duty.reinitOwner == t
    requires t >= FIRST_CALLER && th.lib == Out && InAwait(th.main) && h.stage.exposed.Yes?
    ensures RendezvousStep(m, h, t, AwaitEffect(m, h, th.main, parked, ch))
  {
  }

  lemma RendezvousSecond(m: Memory, h: History, t: nat, th: Thread, ch: Choice)
    requires RendezvousGlobal(m, h) && RendezvousLocal(m, h, t, th)
    requires Active(th.main) ==> m.cell.activeReinit.Yes? && h.duty.reinitOwner == t
    requires t >= FIRST_CALLER && th.lib == Out && InSecond(th.main) && h.stage.exposed.Yes?
    ensures RendezvousStep(m, h, t, SecondEffect(m, h, th.main, ch))
  {
    var e := SecondEffect(m, h, th.main, ch);
    assert RendezvousStep(m, h, t, e);
  }

  lemma RendezvousConclude(m: Memory, h: History, t: nat, th: Thread, ch: Choice)
    requires RendezvousGlobal(m, h) && RendezvousLocal(m, h, t, th)
    requires Active(th.main) ==> m.cell.activeReinit.Yes? && h.duty.reinitOwner == t
    requires t >= FIRST_CALLER && th.lib == Out && InConclude(th.main) && h.stage.exposed.Yes?
    ensures RendezvousStep(m, h, t, ConcludeEffect(m, h, t, th.main, ch))
  {
    var e := ConcludeEffect(m, h, t, th.main, ch);
    assert RendezvousStep(m, h, t, e);
  }
}
