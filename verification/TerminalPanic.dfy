/**
 Twelfth layer: every kind of foreign code panics at most once. A panic closes
 the place it came from: the hook is spent, startup has failed, the task is
 over, and no reinitialization can be admitted or continue.
 */
module TerminalPanic {
  import opened Wrappers
  import opened TerminalMemory
  import opened TerminalProtocol
  import opened TerminalOrder
  import opened TerminalRequest
  import opened TerminalFinish
  import opened TerminalReinit
  import opened TerminalRendezvous
  import opened TerminalJoin
  import opened TerminalHook

  /** The owner has nothing outstanding and may still go on to submit or to poll. */
  predicate Unspoiled(main: Main) {
    InCallback(main) || main.RRetire? || InSecond(main) || main.RConstruct? || main.RPoll?
  }

  predicate PanicGlobal(m: Memory, h: History) {
    && (!Ran(m.ctl.requestState) ==> !Panicked(h, OfRequest))
    && (Panicked(h, OfReinit) || (Panicked(h, OfCleanup) && !Left(m)) ==> m.cell.operation == None)
    && (Panicked(h, OfCleanup) && !Left(m) && h.ops.executing == None ==>
          Terminal(m) && m.cell.retirementFailed.Yes?)
    && (Panicked(h, OfCleanup) && h.ops.executing.Some? ==> h.ops.executing == Some(Retire))
    && (Panicked(h, OfReinit) && m.cell.activeReinit.No? ==> Terminal(m))
  }

  /** The reinitializing caller: a panic leaves it no way on but to return. */
  predicate OwnerSpoiled(m: Memory, h: History, th: Thread) {
    && (Unspoiled(th.main) ==>
          && m.cell.operation == None && h.ops.executing == None
          && !Panicked(h, OfReinit) && !Panicked(h, OfCleanup))
    && (th.main.RRetireNotify? || th.main.RRetireWait? ==> !Panicked(h, OfReinit))
    && (th.main.RConstructNotify? || th.main.RConstructWait? ==>
          && !Panicked(h, OfCleanup)
          && (Panicked(h, OfReinit) ==>
                h.ops.answerOf == Some(th.main.id) && h.ops.answer == TB_PANICKED
                && (h.ops.executing == None ==> Terminal(m))))
    && (th.main.REnd? && Panicked(h, OfReinit) && !InCommit(th.lib) ==> Terminal(m))
  }

  predicate WorkerSpoiled(m: Memory, h: History, th: Thread) {
    && (th.main.WExec? || InConstruction(th.main) ==> !Panicked(h, OfReinit) && !Panicked(h, OfCleanup))
    && (th.main.WAck? && (Panicked(h, OfReinit) || Panicked(h, OfCleanup)) && !InCommit(th.lib) ==> Terminal(m))
    && (LoopFrame(th.main) || th.main.WSettle? || th.main.WJoin? ==>
          m.res.initialResult == Some(TaskPanicked) ==> !Panicked(h, OfInitial))
  }

  predicate PanicLocal(m: Memory, h: History, t: nat, th: Thread) {
    && (th.lib.CallHook? ==> !Panicked(h, OfRequest))
    && (t == STARTUP && (InParse(th.main) || InFactory(th.main) || InAttach(th.main)) ==> !Panicked(h, OfStartup))
    && (t == STARTUP && (InParse(th.main) || th.main.SFactory?) ==> !Panicked(h, OfFactory))
    && (t == TASK && !th.main.TGone? && (th.main.TEnd? ==> th.main.outcome == TaskPanicked) ==>
          !Panicked(h, OfInitial))
    && (t >= FIRST_CALLER ==> OwnerSpoiled(m, h, th))
    && (t == WORKER ==> WorkerSpoiled(m, h, th))
  }

  /** A step notes no panic, or the first panic of one kind. */
  predicate Fresh(t: nat, p: PanicLog, p': PanicLog) {
    || p' == p
    || (p'.total == p.total + 1 && p'.latest !in p.panicked && p'.panicked == p.panicked + {p'.latest}
        && p'.keeper == p.keeper[p'.latest := t])
  }

  /** Who may panic: the thread that runs that kind of foreign code. */
  predicate MayPanic(t: nat, m: Memory, h: History, k: PayloadKind) {
    match k
    case OfRequest => m.ctl.requestState == RequestRunning && h.duty.requester == t
    case OfStartup => t == STARTUP
    case OfFactory => t == STARTUP
    case OfInitial => (t == TASK && m.res.initialResult == None) || (t == WORKER && m.res.initialResult.Some?)
    case OfFinish => t == WORKER
    case OfCleanup => t == WORKER && (Left(m) || h.ops.executing == Some(Retire))
    case OfReinit =>
      if t == WORKER then h.ops.executing.Some? && h.ops.executing.value.Construct?
      else m.cell.activeReinit.Yes? && h.duty.reinitOwner == t && h.ops.executing == None
  }

  predicate PanicGuarantee(t: nat, m: Memory, h: History, m': Memory, h': History) {
    && Fresh(t, h.panics, h'.panics)
    && (h'.panics == h.panics || MayPanic(t, m, h, h'.panics.latest))
    && (Terminal(m) ==> Terminal(m'))
    && (m'.res.initialResult == m.res.initialResult
        || (t == TASK && m.res.initialResult == None
            && (m'.res.initialResult == Some(TaskPanicked) ==> !Panicked(h', OfInitial))))
    && (t == WORKER && h.ops.executing.Some? && h'.ops.executing == None && Panicked(h, OfReinit) ==> Terminal(m))
    && (h'.panics != h.panics && h'.panics.latest == OfReinit && t == WORKER ==>
          h'.ops.answerOf == Some(h.ops.executing.value.id) && h'.ops.answer == TB_PANICKED
          && h'.ops.executing == h.ops.executing)
  }

  predicate PanicStep(m: Memory, h: History, t: nat, e: Effect) {
    && PanicGlobal(e.m, e.h)
    && PanicLocal(e.m, e.h, t, e.th)
    && PanicGuarantee(t, m, h, e.m, e.h)
  }

  lemma PanicStable(m: Memory, h: History, m': Memory, h': History, t: nat, u: nat, th: Thread)
    requires u != t && PanicLocal(m, h, u, th) && PanicGuarantee(t, m, h, m', h')
    requires FinishGlobal(m, h) && RendezvousGlobal(m, h) && RendezvousGuarantee(t, m, h, m', h')
    requires RequestLocal(m, h, u, th) && ReinitLocal(m, h, u, th) && RendezvousLocal(m, h, u, th)
      && JoinLocal(m, h, u, th)
    ensures PanicLocal(m', h', u, th)
  {
  }

  lemma PanicCommit(m: Memory, h: History, t: nat, th: Thread, ch: Choice)
    requires PanicGlobal(m, h) && PanicLocal(m, h, t, th)
    requires InCommit(th.lib)
    ensures PanicStep(m, h, t, CommitEffect(m, h, t, th, ch))
  {
    var e := CommitEffect(m, h, t, th, ch);
    assert PanicStep(m, h, t, e);
  }

  lemma PanicRequestHook(m: Memory, h: History, t: nat, th: Thread, ch: Choice)
    requires PanicGlobal(m, h) && PanicLocal(m, h, t, th)
    requires RequestLocal(m, h, t, th)
    requires InRequest(th.lib)
    requires th.lib.Request? || th.lib.CallHook?
    ensures PanicStep(m, h, t, RequestEffect(m, h, t, th, ch))
  {
  }

  lemma PanicRequestReturn(m: Memory, h: History, t: nat, th: Thread, ch: Choice)
    requires PanicGlobal(m, h) && PanicLocal(m, h, t, th)
    requires RequestLocal(m, h, t, th)
    requires InRequest(th.lib)
    requires !th.lib.Request? && !th.lib.CallHook?
    ensures PanicStep(m, h, t, RequestEffect(m, h, t, th, ch))
  {
  }

  lemma PanicHookPanic(m: Memory, h: History, t: nat, th: Thread)
    requires PanicGlobal(m, h) && PanicLocal(m, h, t, th)
    requires RequestLocal(m, h, t, th)
    requires InHookPanic(th.lib)
    ensures PanicStep(m, h, t, HookPanicEffect(m, h, t, th))
  {
    var e := HookPanicEffect(m, h, t, th);
    assert PanicStep(m, h, t, e);
  }

  lemma PanicMark(m: Memory, h: History, t: nat, th: Thread)
    requires PanicGlobal(m, h) && PanicLocal(m, h, t, th)
    requires InMark(th.lib)
    ensures PanicStep(m, h, t, MarkEffect(m, h, th))
  {
    var e := MarkEffect(m, h, th);
    assert PanicStep(m, h, t, e);
  }

  lemma PanicScheduleSubmit(m: Memory, h: History, t: nat, th: Thread, ch: Choice)
    requires PanicGlobal(m, h) && PanicLocal(m, h, t, th)
    requires FinishLocal(m, h, t, th)
    requires InSchedule(th.lib)
    requires th.lib.Schedule? || th.lib.Spawn?
    ensures PanicStep(m, h, t, ScheduleEffect(m, h, t, th, ch))
  {
    var e := ScheduleEffect(m, h, t, th, ch);
    assert PanicStep(m, h, t, e);
  }

  lemma PanicScheduleReject(m: Memory, h: History, t: nat, th: Thread, ch: Choice)
    requires PanicGlobal(m, h) && PanicLocal(m, h, t, th)
    requires FinishLocal(m, h, t, th)
    requires InSchedule(th.lib)
    requires !th.lib.Schedule? && !th.lib.Spawn?
    ensures PanicStep(m, h, t, ScheduleEffect(m, h, t, th, ch))
  {
    var e := ScheduleEffect(m, h, t, th, ch);
    assert PanicStep(m, h, t, e);
  }

  lemma PanicParse(m: Memory, h: History, th: Thread, ch: Choice)
    requires PanicGlobal(m, h) && PanicLocal(m, h, STARTUP, th)
    requires th.lib == Out && InParse(th.main)
    ensures PanicStep(m, h, STARTUP, ParseEffect(m, h, th.main, ch))
  {
  }

  lemma PanicFactory(m: Memory, h: History, th: Thread, ch: Choice)
    requires PanicGlobal(m, h) && PanicLocal(m, h, STARTUP, th)
    requires RequestLocal(m, h, STARTUP, th)
    requires th.lib == Out && InFactory(th.main)
    ensures PanicStep(m, h, STARTUP, FactoryEffect(m, h, th.main, ch))
  {
    var e := FactoryEffect(m, h, th.main, ch);
    assert PanicGlobal(e.m, e.h);
    assert PanicGuarantee(STARTUP, m, h, e.m, e.h);
    assert PanicLocal(e.m, e.h, STARTUP, e.th);
  }

  lemma PanicAttachEarly(m: Memory, h: History, th: Thread, ch: Choice)
    requires PanicGlobal(m, h) && PanicLocal(m, h, STARTUP, th)
    requires th.lib == Out && InAttach(th.main)
    requires th.main.SSetup? || th.main.SRuntime?
    ensures PanicStep(m, h, STARTUP, AttachEffect(m, h, th.main, ch))
  {
  }

  lemma PanicAttachLate(m: Memory, h: History, th: Thread, ch: Choice)
    requires PanicGlobal(m, h) && PanicLocal(m, h, STARTUP, th)
    requires th.lib == Out && InAttach(th.main)
    requires !th.main.SSetup? && !th.main.SRuntime?
    ensures PanicStep(m, h, STARTUP, AttachEffect(m, h, th.main, ch))
  {
    var e := AttachEffect(m, h, th.main, ch);
    assert PanicStep(m, h, STARTUP, e);
  }

  lemma PanicPublish(m: Memory, h: History, th: Thread)
    requires PanicGlobal(m, h) && PanicLocal(m, h, STARTUP, th)
    requires th.lib == Out && InPublish(th.main)
    ensures PanicStep(m, h, STARTUP, PublishEffect(m, h, th.main))
  {
    var e := PublishEffect(m, h, th.main);
    assert PanicStep(m, h, STARTUP, e);
  }

  lemma PanicTaskEnds(m: Memory, h: History, th: Thread, ch: Choice)
    requires PanicGlobal(m, h) && PanicLocal(m, h, TASK, th)
    requires JoinLocal(m, h, TASK, th)
    requires th.lib == Out && h.stage.taskSpawned.Yes?
    requires th.main.THandshake? || th.main.TPoll?
    ensures PanicStep(m, h, TASK, TaskEffect(m, h, th.main, ch))
  {
  }

  lemma PanicTaskSetup(m: Memory, h: History, th: Thread, ch: Choice)
    requires PanicGlobal(m, h) && PanicLocal(m, h, TASK, th)
    requires JoinLocal(m, h, TASK, th)
    requires th.lib == Out && h.stage.taskSpawned.Yes?
    requires th.main.TSetup?
    ensures PanicStep(m, h, TASK, TaskEffect(m, h, th.main, ch))
  {
  }

  lemma PanicTaskSets(m: Memory, h: History, th: Thread, ch: Choice)
    requires PanicGlobal(m, h) && PanicLocal(m, h, TASK, th)
    requires JoinLocal(m, h, TASK, th)
    requires th.lib == Out && h.stage.taskSpawned.Yes?
    requires !th.main.THandshake? && !th.main.TPoll? && !th.main.TSetup?
    ensures PanicStep(m, h, TASK, TaskEffect(m, h, th.main, ch))
  {
    var e := TaskEffect(m, h, th.main, ch);
    assert PanicStep(m, h, TASK, e);
  }

  lemma PanicLoop(m: Memory, h: History, th: Thread, parked: bool, ch: Choice)
    requires PanicGlobal(m, h) && PanicLocal(m, h, WORKER, th)
    requires FinishGlobal(m, h) && FinishLocal(m, h, WORKER, th)
    requires RendezvousLocal(m, h, WORKER, th) && HookLocal(m, h, WORKER, th)
    requires th.lib == Out && InLoop(th.main) && h.stage.workerStarted.Yes?
    ensures PanicStep(m, h, WORKER, LoopEffect(m, h, th.main, parked, ch))
  {
    var e := LoopEffect(m, h, th.main, parked, ch);
    assert PanicStep(m, h, WORKER, e);
  }

  lemma PanicOperation(m: Memory, h: History, th: Thread, ch: Choice)
    requires PanicGlobal(m, h) && PanicLocal(m, h, WORKER, th)
    requires RendezvousGlobal(m, h) && RendezvousLocal(m, h, WORKER, th)
    requires th.lib == Out && InOperation(th.main) && h.stage.workerStarted.Yes?
    ensures PanicStep(m, h, WORKER, OperationEffect(m, h, th.main, ch))
  {
  }

  lemma PanicClosure(m: Memory, h: History, th: Thread, ch: Choice)
    requires PanicGlobal(m, h) && PanicLocal(m, h, WORKER, th)
    requires RendezvousGlobal(m, h) && RendezvousLocal(m, h, WORKER, th)
    requires th.lib == Out && InClosure(th.main) && h.stage.workerStarted.Yes?
    ensures PanicStep(m, h, WORKER, ClosureEffect(m, h, th.main, ch))
  {
  }

  lemma PanicParsed(m: Memory, h: History, th: Thread, ch: Choice)
    requires PanicGlobal(m, h) && PanicLocal(m, h, WORKER, th)
    requires RendezvousGlobal(m, h) && RendezvousLocal(m, h, WORKER, th)
    requires th.lib == Out && InParsed(th.main) && h.stage.workerStarted.Yes?
    ensures PanicStep(m, h, WORKER, ParsedEffect(m, h, th.main, ch))
  {
  }

  lemma PanicSettleJoin(m: Memory, h: History, th: Thread, ch: Choice)
    requires PanicGlobal(m, h) && PanicLocal(m, h, WORKER, th)
    requires HookLocal(m, h, WORKER, th) && RendezvousLocal(m, h, WORKER, th)
    requires Left(m) && Terminal(m)
    requires th.lib == Out && InSettle(th.main) && h.stage.workerStarted.Yes?
    requires th.main.WSettle? || th.main.WJoin?
    ensures PanicStep(m, h, WORKER, SettleEffect(m, h, th.main, ch))
  {
    var e := SettleEffect(m, h, th.main, ch);
    assert PanicGlobal(e.m, e.h);
    assert PanicGuarantee(WORKER, m, h, e.m, e.h);
    assert PanicLocal(e.m, e.h, WORKER, e.th);
  }

  lemma PanicSettleDone(m: Memory, h: History, th: Thread, ch: Choice)
    requires PanicGlobal(m, h) && PanicLocal(m, h, WORKER, th)
    requires HookLocal(m, h, WORKER, th) && RendezvousLocal(m, h, WORKER, th)
    requires Left(m) && Terminal(m)
    requires th.lib == Out && InSettle(th.main) && h.stage.workerStarted.Yes?
    requires !th.main.WSettle? && !th.main.WJoin?
    ensures PanicStep(m, h, WORKER, SettleEffect(m, h, th.main, ch))
  {
    var e := SettleEffect(m, h, th.main, ch);
    assert PanicStep(m, h, WORKER, e);
  }

  lemma PanicReleaseHook(m: Memory, h: History, th: Thread, ch: Choice)
    requires PanicGlobal(m, h) && PanicLocal(m, h, WORKER, th)
    requires HookLocal(m, h, WORKER, th) && RendezvousLocal(m, h, WORKER, th)
    requires Left(m) && Terminal(m)
    requires th.lib == Out && InRelease(th.main) && h.stage.workerStarted.Yes?
    requires th.main.WFinish?
    ensures PanicStep(m, h, WORKER, ReleaseEffect(m, h, th.main, ch))
  {
    var e := ReleaseEffect(m, h, th.main, ch);
    assert PanicStep(m, h, WORKER, e);
  }

  lemma PanicReleaseTake(m: Memory, h: History, th: Thread, ch: Choice)
    requires PanicGlobal(m, h) && PanicLocal(m, h, WORKER, th)
    requires HookLocal(m, h, WORKER, th) && RendezvousLocal(m, h, WORKER, th)
    requires Left(m) && Terminal(m)
    requires th.lib == Out && InRelease(th.main) && h.stage.workerStarted.Yes?
    requires !th.main.WFinish?
    ensures PanicStep(m, h, WORKER, ReleaseEffect(m, h, th.main, ch))
  {
    var e := ReleaseEffect(m, h, th.main, ch);
    assert PanicStep(m, h, WORKER, e);
  }

  lemma PanicFinish(m: Memory, h: History, th: Thread, ch: Choice)
    requires PanicGlobal(m, h) && PanicLocal(m, h, WORKER, th)
    requires Left(m) && Terminal(m)
    requires th.lib == Out && InFinish(th.main) && h.stage.workerStarted.Yes?
    ensures PanicStep(m, h, WORKER, FinishEffect(m, h, th.main, ch))
  {
    var e := FinishEffect(m, h, th.main, ch);
    assert PanicStep(m, h, WORKER, e);
  }

  lemma PanicStart(m: Memory, h: History, t: nat, th: Thread, ch: Choice)
    requires PanicGlobal(m, h) && PanicLocal(m, h, t, th)
    requires t >= FIRST_CALLER && th == Thread(Out, Rest)
    ensures PanicStep(m, h, t, StartEffect(m, h, ch))
  {
  }

  lemma PanicShutdown(m: Memory, h: History, t: nat, th: Thread, parked: bool, ch: Choice)
    requires PanicGlobal(m, h) && PanicLocal(m, h, t, th)
    requires t >= FIRST_CALLER && th.lib == Out && InShutdown(th.main) && h.stage.exposed.Yes?
    ensures PanicStep(m, h, t, ShutdownEffect(m, h, th.main, parked, ch))
  {
    var e := ShutdownEffect(m, h, th.main, parked, ch);
    assert PanicStep(m, h, t, e);
  }

  lemma PanicVerdict(m: Memory, h: History, t: nat, th: Thread, ch: Choice)
    requires PanicGlobal(m, h) && PanicLocal(m, h, t, th)
    requires t >= FIRST_CALLER && th.lib == Out && InVerdict(th.main) && h.stage.exposed.Yes?
    ensures PanicStep(m, h, t, VerdictEffect(m, h, th.main, ch))
  {
    var e := VerdictEffect(m, h, th.main, ch);
    assert PanicStep(m, h, t, e);
  }

  lemma PanicOwner(m: Memory, h: History, t: nat, th: Thread)
    requires PanicGlobal(m, h) && PanicLocal(m, h, t, th)
    requires t >= FIRST_CALLER && th.lib == Out && InOwner(th.main) && h.stage.exposed.Yes?
    ensures PanicStep(m, h, t, OwnerEffect(m, h, th.main))
  {
    var e := OwnerEffect(m, h, th.main);
    assert PanicStep(m, h, t, e);
  }

  lemma PanicAdmitLive(m: Memory, h: History, t: nat, th: Thread, ch: Choice)
    requires PanicGlobal(m, h) && PanicLocal(m, h, t, th)
    requires FinishGlobal(m, h) && RendezvousGlobal(m, h)
    requires t >= FIRST_CALLER && th.lib == Out && InAdmit(th.main) && h.stage.exposed.Yes?
    requires th.main.RLive?
    ensures PanicStep(m, h, t, AdmitEffect(m, h, t, th.main, ch))
  {
    var e := AdmitEffect(m, h, t, th.main, ch);
    assert PanicStep(m, h, t, e);
  }

  lemma PanicAdmitRecheck(m: Memory, h: History, t: nat, th: Thread, ch: Choice)
    requires PanicGlobal(m, h) && PanicLocal(m, h, t, th)
    requires FinishGlobal(m, h) && RendezvousGlobal(m, h)
    requires t >= FIRST_CALLER && th.lib == Out && InAdmit(th.main) && h.stage.exposed.Yes?
    requires th.main.RRecheck?
    ensures PanicStep(m, h, t, AdmitEffect(m, h, t, th.main, ch))
  {
  }

  lemma PanicAdmitBegin(m: Memory, h: History, t: nat, th: Thread, ch: Choice)
    requires PanicGlobal(m, h) && PanicLocal(m, h, t, th)
    requires FinishGlobal(m, h) && RendezvousGlobal(m, h)
    requires t >= FIRST_CALLER && th.lib == Out && InAdmit(th.main) && h.stage.exposed.Yes?
    requires th.main.RBegin?
    ensures PanicStep(m, h, t, AdmitEffect(m, h, t, th.main, ch))
  {
  }

  lemma PanicCallback(m: Memory, h: History, t: nat, th: Thread, ch: Choice)
    requires PanicGlobal(m, h) && PanicLocal(m, h, t, th)
    requires Active(th.main) ==> m.cell.activeReinit.Yes? && h.duty.reinitOwner == t
    requires t >= FIRST_CALLER && th.lib == Out && InCallback(th.main) && h.stage.exposed.Yes?
    ensures PanicStep(m, h, t, CallbackEffect(m, h, t, th.main, ch))
  {
    var e := CallbackEffect(m, h, t, th.main, ch);
    assert PanicStep(m, h, t, e);
  }

  lemma PanicSubmission(m: Memory, h: History, t: nat, th: Thread)
    requires PanicGlobal(m, h) && PanicLocal(m, h, t, th)
    requires Active(th.main) ==> m.cell.activeReinit.Yes? && h.duty.reinitOwner == t
    requires t >= FIRST_CALLER && th.lib == Out && InSubmission(th.main) && h.stage.exposed.Yes?
    ensures PanicStep(m, h, t, SubmissionEffect(m, h, t, th.main))
  {
    var e := SubmissionEffect(m, h, t, th.main);
    assert PanicStep(m, h, t, e);
  }

  lemma PanicAwait(m: Memory, h: History, t: nat, th: Thread, parked: bool, ch: Choice)
    requires PanicGlobal(m, h) && PanicLocal(m, h, t, th)
    requires Active(th.main) ==> m.cell.activeReinit.Yes? && h.duty.reinitOwner == t
    requires FinishGlobal(m, h)
    requires RendezvousGlobal(m, h) && RendezvousLocal(m, h, t, th)
    requires t >= FIRST_CALLER && th.lib == Out && InAwait(th.main) && h.stage.exposed.Yes?
    ensures PanicStep(m, h, t, AwaitEffect(m, h, th.main, parked, ch))
  {
  }

  lemma PanicSecond(m: Memory, h: History, t: nat, th: Thread, ch: Choice)
    requires PanicGlobal(m, h) && PanicLocal(m, h, t, th)
    requires t >= FIRST_CALLER && th.lib == Out && InSecond(th.main) && h.stage.exposed.Yes?
    ensures PanicStep(m, h, t, SecondEffect(m, h, th.main, ch))
  {
  }

  lemma PanicConcludePoll(m: Memory, h: History, t: nat, th: Thread, ch: Choice)
    requires PanicGlobal(m, h) && PanicLocal(m, h, t, th)
    requires Active(th.main) ==> m.cell.activeReinit.Yes? && h.duty.reinitOwner == t
    requires t >= FIRST_CALLER && th.lib == Out && InConclude(th.main) && h.stage.exposed.Yes?
    requires th.main.RPoll?
    ensures PanicStep(m, h, t, ConcludeEffect(m, h, t, th.main, ch))
  {
  }

  lemma PanicConcludeEnd(m: Memory, h: History, t: nat, th: Thread, ch: Choice)
    requires PanicGlobal(m, h) && PanicLocal(m, h, t, th)
    requires Active(th.main) ==> m.cell.activeReinit.Yes? && h.duty.reinitOwner == t
    requires t >= FIRST_CALLER && th.lib == Out && InConclude(th.main) && h.stage.exposed.Yes?
    requires !th.main.RPoll?
    ensures PanicStep(m, h, t, ConcludeEffect(m, h, t, th.main, ch))
  {
    var e := ConcludeEffect(m, h, t, th.main, ch);
    assert PanicStep(m, h, t, e);
  }
}
