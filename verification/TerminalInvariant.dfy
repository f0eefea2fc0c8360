/**
 The whole invariant of one terminal instance and its preservation by every
 region: the layers combined, program point by program point.
 */
module TerminalInvariant {
  import opened TerminalMemory
  import opened TerminalProtocol
  import opened TerminalOrder
  import opened TerminalRequest
  import opened TerminalFinish
  import opened TerminalReinit
  import opened TerminalRendezvous
  import opened TerminalAnchor
  import opened TerminalJoin
  import opened TerminalHook
  import opened TerminalRelease
  import opened TerminalDisposal
  import opened TerminalPanic
  import opened TerminalPayload
  import opened TerminalWake

  ghost predicate Globals(m: Memory, h: History) {
    && OrderGlobal(m, h) && RequestGlobal(m, h) && FinishGlobal(m, h) && ReinitGlobal(m, h)
    && RendezvousGlobal(m, h) && AnchorGlobal(m, h) && JoinGlobal(m, h) && HookGlobal(m, h)
    && ReleaseGlobal(m, h) && PanicGlobal(m, h) && PayloadGlobal(m, h)
  }

  ghost predicate Locals(m: Memory, h: History, t: nat, th: Thread, parked: bool) {
    && OrderLocal(m, h, t, th) && RequestLocal(m, h, t, th) && FinishLocal(m, h, t, th) && ReinitLocal(m, h, t, th)
    && RendezvousLocal(m, h, t, th) && AnchorLocal(m, h, t, th) && JoinLocal(m, h, t, th) && HookLocal(m, h, t, th)
    && ReleaseLocal(m, h, t, th) && DisposalLocal(m, h, t, th) && PanicLocal(m, h, t, th) && PayloadLocal(m, h, t, th)
    && WakeLocal(m, h, t, th, parked)
  }

  ghost predicate StepOk(m: Memory, h: History, t: nat, e: Effect, parked: bool) {
    && OrderStep(m, h, t, e) && RequestStep(m, h, t, e) && FinishStep(m, h, t, e) && ReinitStep(m, h, t, e)
    && RendezvousStep(m, h, t, e) && AnchorStep(m, h, t, e) && JoinStep(m, h, t, e) && HookStep(m, h, t, e)
    && ReleaseStep(m, h, t, e) && DisposalStep(m, h, t, e) && PanicStep(m, h, t, e) && PayloadStep(m, h, t, e)
    && WakeStep(m, h, t, e, parked)
  }

  lemma StepCommit(m: Memory, h: History, t: nat, th: Thread, parked: bool, ch: Choice)
    requires Globals(m, h) && Locals(m, h, t, th, parked)
    requires InCommit(th.lib)
    ensures StepOk(m, h, t, CommitEffect(m, h, t, th, ch), parked)
  {
    if th.lib.HostFault? {
      OrderCommitHost(m, h, t, th, ch);
    } else if th.lib.LoadReason? {
      OrderCommitLoad(m, h, t, th, ch);
    } else if th.lib.SwapReason? && m.reason == th.lib.seen {
      OrderCommitSwap(m, h, t, th, ch);
    } else {
      OrderCommitLost(m, h, t, th, ch);
    }
    RequestCommit(m, h, t, th, ch);
    FinishCommit(m, h, t, th, ch);
    ReinitCommit(m, h, t, th, ch);
    RendezvousCommit(m, h, t, th, ch);
    AnchorCommit(m, h, t, th, ch);
    JoinCommit(m, h, t, th, ch);
    if th.lib.HostFault? {
      HookCommitHost(m, h, t, th, ch);
    } else {
      HookCommitSwap(m, h, t, th, ch);
    }
    ReleaseCommit(m, h, t, th, ch);
    DisposalCommit(m, h, t, th, ch);
    PanicCommit(m, h, t, th, ch);
    PayloadCommit(m, h, t, th, ch);
    WakeCommit(m, h, t, th, parked, ch);
  }

  lemma StepRequest(m: Memory, h: History, t: nat, th: Thread, parked: bool, ch: Choice)
    requires Globals(m, h) && Locals(m, h, t, th, parked)
    requires InRequest(th.lib)
    ensures StepOk(m, h, t, RequestEffect(m, h, t, th, ch), parked)
  {
    OrderRequest(m, h, t, th, ch);
    RequestRequest(m, h, t, th, ch);
    FinishRequest(m, h, t, th, ch);
    ReinitRequest(m, h, t, th, ch);
    RendezvousRequest(m, h, t, th, ch);
    AnchorRequest(m, h, t, th, ch);
    JoinRequest(m, h, t, th, ch);
    HookRequest(m, h, t, th, ch);
    ReleaseRequest(m, h, t, th, ch);
    DisposalRequest(m, h, t, th, ch);
    if th.lib.Request? || th.lib.CallHook? {
      PanicRequestHook(m, h, t, th, ch);
    } else {
      PanicRequestReturn(m, h, t, th, ch);
    }
    PayloadRequest(m, h, t, th, ch);
    WakeRequest(m, h, t, th, parked, ch);
  }

  lemma StepHookPanic(m: Memory, h: History, t: nat, th: Thread, parked: bool)
    requires Globals(m, h) && Locals(m, h, t, th, parked)
    requires InHookPanic(th.lib)
    ensures StepOk(m, h, t, HookPanicEffect(m, h, t, th), parked)
  {
    OrderHookPanic(m, h, t, th);
    RequestHookPanic(m, h, t, th);
    FinishHookPanic(m, h, t, th);
    ReinitHookPanic(m, h, t, th);
    RendezvousHookPanic(m, h, t, th);
    AnchorHookPanic(m, h, t, th);
    JoinHookPanic(m, h, t, th);
    HookHookPanic(m, h, t, th);
    ReleaseHookPanic(m, h, t, th);
    DisposalHookPanic(m, h, t, th);
    PanicHookPanic(m, h, t, th);
    PayloadHookPanic(m, h, t, th);
    WakeHookPanic(m, h, t, th, parked);
  }

  lemma StepMark(m: Memory, h: History, t: nat, th: Thread, parked: bool)
    requires Globals(m, h) && Locals(m, h, t, th, parked)
    requires InMark(th.lib)
    ensures StepOk(m, h, t, MarkEffect(m, h, th), parked)
  {
    OrderMark(m, h, t, th);
    RequestMark(m, h, t, th);
    FinishMark(m, h, t, th);
    ReinitMark(m, h, t, th);
    RendezvousMark(m, h, t, th);
    AnchorMark(m, h, t, th);
    JoinMark(m, h, t, th);
    HookMark(m, h, t, th);
    ReleaseMark(m, h, t, th);
    DisposalMark(m, h, t, th);
    PanicMark(m, h, t, th);
    PayloadMark(m, h, t, th);
    WakeMark(m, h, t, th, parked);
  }

  lemma StepSchedule(m: Memory, h: History, t: nat, th: Thread, parked: bool, ch: Choice)
    requires Globals(m, h) && Locals(m, h, t, th, parked)
    requires InSchedule(th.lib)
    ensures StepOk(m, h, t, ScheduleEffect(m, h, t, th, ch), parked)
  {
    OrderSchedule(m, h, t, th, ch);
    RequestSchedule(m, h, t, th, ch);
    FinishSchedule(m, h, t, th, ch);
    ReinitSchedule(m, h, t, th, ch);
    RendezvousSchedule(m, h, t, th, ch);
    AnchorSchedule(m, h, t, th, ch);
    JoinSchedule(m, h, t, th, ch);
    HookSchedule(m, h, t, th, ch);
    ReleaseSchedule(m, h, t, th, ch);
    DisposalSchedule(m, h, t, th, ch);
    if th.lib.Schedule? || th.lib.Spawn? {
      PanicScheduleSubmit(m, h, t, th, ch);
    } else {
      PanicScheduleReject(m, h, t, th, ch);
    }
    PayloadSchedule(m, h, t, th, ch);
    WakeSchedule(m, h, t, th, parked, ch);
  }

  lemma StepParse(m: Memory, h: History, th: Thread, parked: bool, ch: Choice)
    requires Globals(m, h) && Locals(m, h, STARTUP, th, parked)
    requires th.lib == Out && InParse(th.main)
    ensures StepOk(m, h, STARTUP, ParseEffect(m, h, th.main, ch), parked)
  {
    OrderParse(m, h, th, ch);
    RequestParse(m, h, th, ch);
    FinishParse(m, h, th, ch);
    ReinitParse(m, h, th, ch);
    RendezvousParse(m, h, th, ch);
    AnchorParse(m, h, th, ch);
    JoinParse(m, h, th, ch);
    HookParse(m, h, th, ch);
    ReleaseParse(m, h, th, ch);
    DisposalParse(m, h, th, ch);
    PanicParse(m, h, th, ch);
    PayloadParse(m, h, th, ch);
    WakeParse(m, h, th, parked, ch);
  }

  lemma StepFactory(m: Memory, h: History, th: Thread, parked: bool, ch: Choice)
    requires Globals(m, h) && Locals(m, h, STARTUP, th, parked)
    requires th.lib == Out && InFactory(th.main)
    ensures StepOk(m, h, STARTUP, FactoryEffect(m, h, th.main, ch), parked)
  {
    OrderFactory(m, h, th, ch);
    RequestFactory(m, h, th, ch);
    FinishFactory(m, h, th, ch);
    ReinitFactory(m, h, th, ch);
    RendezvousFactory(m, h, th, ch);
    AnchorFactory(m, h, th, ch);
    JoinFactory(m, h, th, ch);
    HookFactory(m, h, th, ch);
    ReleaseFactory(m, h, th, ch);
    DisposalFactory(m, h, th, ch);
    PanicFactory(m, h, th, ch);
    PayloadFactory(m, h, th, ch);
    WakeFactory(m, h, th, parked, ch);
  }

  lemma StepAttach(m: Memory, h: History, th: Thread, parked: bool, ch: Choice)
    requires Globals(m, h) && Locals(m, h, STARTUP, th, parked)
    requires th.lib == Out && InAttach(th.main)
    ensures StepOk(m, h, STARTUP, AttachEffect(m, h, th.main, ch), parked)
  {
    OrderAttach(m, h, th, ch);
    RequestAttach(m, h, th, ch);
    FinishAttach(m, h, th, ch);
    ReinitAttach(m, h, th, ch);
    RendezvousAttach(m, h, th, ch);
    AnchorAttach(m, h, th, ch);
    JoinAttach(m, h, th, ch);
    HookAttach(m, h, th, ch);
    ReleaseAttach(m, h, th, ch);
    DisposalAttach(m, h, th, ch);
    if th.main.SSetup? || th.main.SRuntime? {
      PanicAttachEarly(m, h, th, ch);
    } else {
      PanicAttachLate(m, h, th, ch);
    }
    PayloadAttach(m, h, th, ch);
    WakeAttach(m, h, th, parked, ch);
  }

  lemma StepPublish(m: Memory, h: History, th: Thread, parked: bool)
    requires Globals(m, h) && Locals(m, h, STARTUP, th, parked)
    requires th.lib == Out && InPublish(th.main)
    ensures StepOk(m, h, STARTUP, PublishEffect(m, h, th.main), parked)
  {
    OrderPublish(m, h, th);
    RequestPublish(m, h, th);
    FinishPublish(m, h, th);
    ReinitPublish(m, h, th);
    RendezvousPublish(m, h, th);
    AnchorPublish(m, h, th);
    JoinPublish(m, h, th);
    HookPublish(m, h, th);
    ReleasePublish(m, h, th);
    DisposalPublish(m, h, th);
    PanicPublish(m, h, th);
    PayloadPublish(m, h, th);
    WakePublish(m, h, th, parked);
  }

  lemma StepTask(m: Memory, h: History, th: Thread, parked: bool, ch: Choice)
    requires Globals(m, h) && Locals(m, h, TASK, th, parked)
    requires th.lib == Out && h.stage.taskSpawned.Yes?
    ensures StepOk(m, h, TASK, TaskEffect(m, h, th.main, ch), parked)
  {
    if th.main.THandshake? || th.main.TPoll? {
      OrderTaskEnds(m, h, th, ch);
    } else {
      OrderTaskSets(m, h, th, ch);
    }
    RequestTask(m, h, th, ch);
    if th.main.THandshake? || th.main.TPoll? {
      FinishTaskEnds(m, h, th, ch);
    } else {
      FinishTaskSets(m, h, th, ch);
    }
    ReinitTask(m, h, th, ch);
    RendezvousTask(m, h, th, ch);
    if th.main.THandshake? || th.main.TPoll? {
      AnchorTaskEnds(m, h, th, ch);
    } else if th.main.TSetup? {
      AnchorTaskSetup(m, h, th, ch);
    } else {
      AnchorTaskSets(m, h, th, ch);
    }
    JoinTask(m, h, th, ch);
    HookTask(m, h, th, ch);
    ReleaseTask(m, h, th, ch);
    DisposalTask(m, h, th, ch);
    if th.main.THandshake? || th.main.TPoll? {
      PanicTaskEnds(m, h, th, ch);
    } else if th.main.TSetup? {
      PanicTaskSetup(m, h, th, ch);
    } else {
      PanicTaskSets(m, h, th, ch);
    }
    PayloadTask(m, h, th, ch);
    if th.main.THandshake? || th.main.TPoll? {
      WakeTaskEnds(m, h, th, parked, ch);
    } else {
      WakeTaskSets(m, h, th, parked, ch);
    }
  }

  lemma StepLoop(m: Memory, h: History, th: Thread, parked: bool, ch: Choice)
    requires Globals(m, h) && Locals(m, h, WORKER, th, parked)
    requires th.lib == Out && InLoop(th.main) && h.stage.workerStarted.Yes?
    ensures StepOk(m, h, WORKER, LoopEffect(m, h, th.main, parked, ch), parked)
  {
    OrderLoop(m, h, th, parked, ch);
    RequestLoop(m, h, th, parked, ch);
    FinishLoop(m, h, th, parked, ch);
    ReinitLoop(m, h, th, parked, ch);
    RendezvousLoop(m, h, th, parked, ch);
    AnchorLoop(m, h, th, parked, ch);
    JoinLoop(m, h, th, parked, ch);
    HookLoop(m, h, th, parked, ch);
    ReleaseLoop(m, h, th, parked, ch);
    DisposalLoop(m, h, th, parked, ch);
    PanicLoop(m, h, th, parked, ch);
    PayloadLoop(m, h, th, parked, ch);
    WakeLoop(m, h, th, parked, ch);
  }

  lemma StepOperation(m: Memory, h: History, th: Thread, parked: bool, ch: Choice)
    requires Globals(m, h) && Locals(m, h, WORKER, th, parked)
    requires th.lib == Out && InOperation(th.main) && h.stage.workerStarted.Yes?
    ensures StepOk(m, h, WORKER, OperationEffect(m, h, th.main, ch), parked)
  {
    OrderOperation(m, h, th, ch);
    RequestOperation(m, h, th, ch);
    FinishOperation(m, h, th, ch);
    ReinitOperation(m, h, th, ch);
    RendezvousOperation(m, h, th, ch);
    AnchorOperation(m, h, th, ch);
    JoinOperation(m, h, th, ch);
    HookOperation(m, h, th, ch);
    ReleaseOperation(m, h, th, ch);
    DisposalOperation(m, h, th, ch);
    PanicOperation(m, h, th, ch);
    PayloadOperation(m, h, th, ch);
    WakeOperation(m, h, th, parked, ch);
  }

  lemma StepClosure(m: Memory, h: History, th: Thread, parked: bool, ch: Choice)
    requires Globals(m, h) && Locals(m, h, WORKER, th, parked)
    requires th.lib == Out && InClosure(th.main) && h.stage.workerStarted.Yes?
    ensures StepOk(m, h, WORKER, ClosureEffect(m, h, th.main, ch), parked)
  {
    OrderClosure(m, h, th, ch);
    RequestClosure(m, h, th, ch);
    FinishClosure(m, h, th, ch);
    ReinitClosure(m, h, th, ch);
    RendezvousClosure(m, h, th, ch);
    AnchorClosure(m, h, th, ch);
    JoinClosure(m, h, th, ch);
    HookClosure(m, h, th, ch);
    ReleaseClosure(m, h, th, ch);
    DisposalClosure(m, h, th, ch);
    PanicClosure(m, h, th, ch);
    PayloadClosure(m, h, th, ch);
    WakeClosure(m, h, th, parked, ch);
  }

  lemma StepParsed(m: Memory, h: History, th: Thread, parked: bool, ch: Choice)
    requires Globals(m, h) && Locals(m, h, WORKER, th, parked)
    requires th.lib == Out && InParsed(th.main) && h.stage.workerStarted.Yes?
    ensures StepOk(m, h, WORKER, ParsedEffect(m, h, th.main, ch), parked)
  {
    OrderParsed(m, h, th, ch);
    RequestParsed(m, h, th, ch);
    FinishParsed(m, h, th, ch);
    ReinitParsed(m, h, th, ch);
    RendezvousParsed(m, h, th, ch);
    AnchorParsed(m, h, th, ch);
    if th.main.WParsed? {
      JoinParsedProbe(m, h, th, ch);
    } else {
      JoinParsedBuild(m, h, th, ch);
    }
    HookParsed(m, h, th, ch);
    ReleaseParsed(m, h, th, ch);
    DisposalParsed(m, h, th, ch);
    PanicParsed(m, h, th, ch);
    PayloadParsed(m, h, th, ch);
    WakeParsed(m, h, th, parked, ch);
  }

  lemma StepSettle(m: Memory, h: History, th: Thread, parked: bool, ch: Choice)
    requires Globals(m, h) && Locals(m, h, WORKER, th, parked)
    requires th.lib == Out && InSettle(th.main) && h.stage.workerStarted.Yes?
    ensures StepOk(m, h, WORKER, SettleEffect(m, h, th.main, ch), parked)
  {
    OrderSettle(m, h, th, ch);
    RequestSettle(m, h, th, ch);
    if th.main.WSettle? || th.main.WJoin? {
      FinishSettleJoin(m, h, th, ch);
    } else {
      FinishSettleDone(m, h, th, ch);
    }
    ReinitSettle(m, h, th, ch);
    RendezvousSettle(m, h, th, ch);
    AnchorSettle(m, h, th, ch);
    if th.main.WSettle? || th.main.WJoin? {
      JoinSettleJoin(m, h, th, ch);
    } else {
      JoinSettleDone(m, h, th, ch);
    }
    HookSettle(m, h, th, ch);
    ReleaseSettle(m, h, th, ch);
    if th.main.WSettle? || th.main.WJoin? {
      DisposalSettleJoin(m, h, th, ch);
    } else {
      DisposalSettleDone(m, h, th, ch);
    }
    if th.main.WSettle? || th.main.WJoin? {
      PanicSettleJoin(m, h, th, ch);
    } else {
      PanicSettleDone(m, h, th, ch);
    }
    PayloadSettle(m, h, th, ch);
    if th.main.WSettle? || th.main.WJoin? {
      WakeSettleJoin(m, h, th, parked, ch);
    } else {
      WakeSettleDone(m, h, th, parked, ch);
    }
  }

  lemma StepRelease(m: Memory, h: History, th: Thread, parked: bool, ch: Choice)
    requires Globals(m, h) && Locals(m, h, WORKER, th, parked)
    requires th.lib == Out && InRelease(th.main) && h.stage.workerStarted.Yes?
    ensures StepOk(m, h, WORKER, ReleaseEffect(m, h, th.main, ch), parked)
  {
    OrderRelease(m, h, th, ch);
    RequestRelease(m, h, th, ch);
    if th.main.WFinish? && th.main.hook.Yes? {
      FinishReleaseHook(m, h, th, ch);
    } else if th.main.WFinish? && th.main.hook.No? {
      FinishReleaseUnhooked(m, h, th, ch);
    } else {
      FinishReleaseTake(m, h, th, ch);
    }
    ReinitRelease(m, h, th, ch);
    RendezvousRelease(m, h, th, ch);
    AnchorRelease(m, h, th, ch);
    if th.main.WFinish? {
      JoinReleaseHook(m, h, th, ch);
    } else {
      JoinReleaseTake(m, h, th, ch);
    }
    if th.main.WFinish? {
      HookReleaseHook(m, h, th, ch);
    } else {
      HookReleaseTake(m, h, th, ch);
    }
    if th.main.WFinish? && th.main.hook.Yes? {
      ReleaseReleaseHook(m, h, th, ch);
    } else if th.main.WFinish? && th.main.hook.No? {
      ReleaseReleaseUnhooked(m, h, th, ch);
    } else {
      ReleaseReleaseTake(m, h, th, ch);
    }
    if th.main.WFinish? && th.main.hook.Yes? {
      DisposalReleaseHook(m, h, th, ch);
    } else if th.main.WFinish? && th.main.hook.No? {
      DisposalReleaseUnhooked(m, h, th, ch);
    } else {
      DisposalReleaseTake(m, h, th, ch);
    }
    if th.main.WFinish? {
      PanicReleaseHook(m, h, th, ch);
    } else {
      PanicReleaseTake(m, h, th, ch);
    }
    PayloadRelease(m, h, th, ch);
    WakeRelease(m, h, th, parked, ch);
  }

  lemma StepFinish(m: Memory, h: History, th: Thread, parked: bool, ch: Choice)
    requires Globals(m, h) && Locals(m, h, WORKER, th, parked)
    requires th.lib == Out && InFinish(th.main) && h.stage.workerStarted.Yes?
    ensures StepOk(m, h, WORKER, FinishEffect(m, h, th.main, ch), parked)
  {
    OrderFinish(m, h, th, ch);
    RequestFinish(m, h, th, ch);
    FinishFinish(m, h, th, ch);
    ReinitFinish(m, h, th, ch);
    RendezvousFinish(m, h, th, ch);
    AnchorFinish(m, h, th, ch);
    JoinFinish(m, h, th, ch);
    HookFinish(m, h, th, ch);
    ReleaseFinish(m, h, th, ch);
    DisposalFinish(m, h, th, ch);
    PanicFinish(m, h, th, ch);
    PayloadFinish(m, h, th, ch);
    WakeFinish(m, h, th, parked, ch);
  }

  lemma StepStart(m: Memory, h: History, t: nat, th: Thread, parked: bool, ch: Choice)
    requires Globals(m, h) && Locals(m, h, t, th, parked)
    requires h.stage.exposed.Yes?
    requires t >= FIRST_CALLER && th == Thread(Out, Rest)
    ensures StepOk(m, h, t, StartEffect(m, h, ch), parked)
  {
    OrderStart(m, h, t, th, ch);
    RequestStart(m, h, t, th, ch);
    FinishStart(m, h, t, th, ch);
    ReinitStart(m, h, t, th, ch);
    RendezvousStart(m, h, t, th, ch);
    AnchorStart(m, h, t, th, ch);
    JoinStart(m, h, t, th, ch);
    HookStart(m, h, t, th, ch);
    ReleaseStart(m, h, t, th, ch);
    DisposalStart(m, h, t, th, ch);
    PanicStart(m, h, t, th, ch);
    PayloadStart(m, h, t, th, ch);
    WakeStart(m, h, t, th, parked, ch);
  }

  lemma StepShutdown(m: Memory, h: History, t: nat, th: Thread, parked: bool, ch: Choice)
    requires Globals(m, h) && Locals(m, h, t, th, parked)
    requires t >= FIRST_CALLER && th.lib == Out && InShutdown(th.main) && h.stage.exposed.Yes?
    ensures StepOk(m, h, t, ShutdownEffect(m, h, th.main, parked, ch), parked)
  {
    OrderShutdown(m, h, t, th, parked, ch);
    RequestShutdown(m, h, t, th, parked, ch);
    FinishShutdown(m, h, t, th, parked, ch);
    if !th.main.HWait? {
      ReinitShutdownEnter(m, h, t, th, parked, ch);
    } else {
      ReinitShutdownWait(m, h, t, th, parked, ch);
    }
    RendezvousShutdown(m, h, t, th, parked, ch);
    AnchorShutdown(m, h, t, th, parked, ch);
    JoinShutdown(m, h, t, th, parked, ch);
    HookShutdown(m, h, t, th, parked, ch);
    ReleaseShutdown(m, h, t, th, parked, ch);
    DisposalShutdown(m, h, t, th, parked, ch);
    PanicShutdown(m, h, t, th, parked, ch);
    PayloadShutdown(m, h, t, th, parked, ch);
    if !th.main.HWait? {
      WakeShutdownEnter(m, h, t, th, parked, ch);
    } else {
      WakeShutdownWait(m, h, t, th, parked, ch);
    }
  }

  lemma StepVerdict(m: Memory, h: History, t: nat, th: Thread, parked: bool, ch: Choice)
    requires Globals(m, h) && Locals(m, h, t, th, parked)
    requires t >= FIRST_CALLER && th.lib == Out && InVerdict(th.main) && h.stage.exposed.Yes?
    ensures StepOk(m, h, t, VerdictEffect(m, h, th.main, ch), parked)
  {
    OrderVerdict(m, h, t, th, ch);
    RequestVerdict(m, h, t, th, ch);
    FinishVerdict(m, h, t, th, ch);
    ReinitVerdict(m, h, t, th, ch);
    RendezvousVerdict(m, h, t, th, ch);
    AnchorVerdict(m, h, t, th, ch);
    JoinVerdict(m, h, t, th, ch);
    HookVerdict(m, h, t, th, ch);
    ReleaseVerdict(m, h, t, th, ch);
    DisposalVerdict(m, h, t, th, ch);
    PanicVerdict(m, h, t, th, ch);
    PayloadVerdict(m, h, t, th, ch);
    WakeVerdict(m, h, t, th, parked, ch);
  }

  lemma StepOwner(m: Memory, h: History, t: nat, th: Thread, parked: bool)
    requires Globals(m, h) && Locals(m, h, t, th, parked)
    requires t >= FIRST_CALLER && th.lib == Out && InOwner(th.main) && h.stage.exposed.Yes?
    ensures StepOk(m, h, t, OwnerEffect(m, h, th.main), parked)
  {
    OrderOwner(m, h, t, th);
    RequestOwner(m, h, t, th);
    FinishOwner(m, h, t, th);
    ReinitOwner(m, h, t, th);
    RendezvousOwner(m, h, t, th);
    AnchorOwner(m, h, t, th);
    JoinOwner(m, h, t, th);
    HookOwner(m, h, t, th);
    ReleaseOwner(m, h, t, th);
    DisposalOwner(m, h, t, th);
    PanicOwner(m, h, t, th);
    PayloadOwner(m, h, t, th);
    WakeOwner(m, h, t, th, parked);
  }

  lemma StepAdmit(m: Memory, h: History, t: nat, th: Thread, parked: bool, ch: Choice)
    requires Globals(m, h) && Locals(m, h, t, th, parked)
    requires t >= FIRST_CALLER && th.lib == Out && InAdmit(th.main) && h.stage.exposed.Yes?
    ensures StepOk(m, h, t, AdmitEffect(m, h, t, th.main, ch), parked)
  {
    OrderAdmit(m, h, t, th, ch);
    RequestAdmit(m, h, t, th, ch);
    FinishAdmit(m, h, t, th, ch);
    ReinitAdmit(m, h, t, th, ch);
    RendezvousAdmit(m, h, t, th, ch);
    AnchorAdmit(m, h, t, th, ch);
    JoinAdmit(m, h, t, th, ch);
    HookAdmit(m, h, t, th, ch);
    ReleaseAdmit(m, h, t, th, ch);
    DisposalAdmit(m, h, t, th, ch);
    if th.main.RLive? {
      PanicAdmitLive(m, h, t, th, ch);
    } else if th.main.RRecheck? {
      PanicAdmitRecheck(m, h, t, th, ch);
    } else {
      PanicAdmitBegin(m, h, t, th, ch);
    }
    PayloadAdmit(m, h, t, th, ch);
    WakeAdmit(m, h, t, th, parked, ch);
  }

  lemma StepCallback(m: Memory, h: History, t: nat, th: Thread, parked: bool, ch: Choice)
    requires Globals(m, h) && Locals(m, h, t, th, parked)
    requires t >= FIRST_CALLER && th.lib == Out && InCallback(th.main) && h.stage.exposed.Yes?
    ensures StepOk(m, h, t, CallbackEffect(m, h, t, th.main, ch), parked)
  {
    OrderCallback(m, h, t, th, ch);
    RequestCallback(m, h, t, th, ch);
    FinishCallback(m, h, t, th, ch);
    ReinitCallback(m, h, t, th, ch);
    RendezvousCallback(m, h, t, th, ch);
    AnchorCallback(m, h, t, th, ch);
    JoinCallback(m, h, t, th, ch);
    HookCallback(m, h, t, th, ch);
    ReleaseCallback(m, h, t, th, ch);
    DisposalCallback(m, h, t, th, ch);
    PanicCallback(m, h, t, th, ch);
    PayloadCallback(m, h, t, th, ch);
    if th.main.RCallback? {
      WakeCallbackRun(m, h, t, th, parked, ch);
    } else {
      WakeCallbackProbe(m, h, t, th, parked, ch);
    }
  }

  lemma StepSubmission(m: Memory, h: History, t: nat, th: Thread, parked: bool)
    requires Globals(m, h) && Locals(m, h, t, th, parked)
    requires t >= FIRST_CALLER && th.lib == Out && InSubmission(th.main) && h.stage.exposed.Yes?
    ensures StepOk(m, h, t, SubmissionEffect(m, h, t, th.main), parked)
  {
    OrderSubmission(m, h, t, th);
    RequestSubmission(m, h, t, th);
    FinishSubmission(m, h, t, th);
    ReinitSubmission(m, h, t, th);
    RendezvousSubmission(m, h, t, th);
    AnchorSubmission(m, h, t, th);
    JoinSubmission(m, h, t, th);
    HookSubmission(m, h, t, th);
    ReleaseSubmission(m, h, t, th);
    DisposalSubmission(m, h, t, th);
    PanicSubmission(m, h, t, th);
    PayloadSubmission(m, h, t, th);
    WakeSubmission(m, h, t, th, parked);
  }

  lemma StepAwait(m: Memory, h: History, t: nat, th: Thread, parked: bool, ch: Choice)
    requires Globals(m, h) && Locals(m, h, t, th, parked)
    requires t >= FIRST_CALLER && th.lib == Out && InAwait(th.main) && h.stage.exposed.Yes?
    ensures StepOk(m, h, t, AwaitEffect(m, h, th.main, parked, ch), parked)
  {
    OrderAwait(m, h, t, th, parked, ch);
    RequestAwait(m, h, t, th, parked, ch);
    FinishAwait(m, h, t, th, parked, ch);
    ReinitAwait(m, h, t, th, parked, ch);
    RendezvousAwait(m, h, t, th, parked, ch);
    AnchorAwait(m, h, t, th, parked, ch);
    JoinAwait(m, h, t, th, parked, ch);
    HookAwait(m, h, t, th, parked, ch);
    ReleaseAwait(m, h, t, th, parked, ch);
    DisposalAwait(m, h, t, th, parked, ch);
    PanicAwait(m, h, t, th, parked, ch);
    PayloadAwait(m, h, t, th, parked, ch);
    WakeAwait(m, h, t, th, parked, ch);
  }

  lemma StepSecond(m: Memory, h: History, t: nat, th: Thread, parked: bool, ch: Choice)
    requires Globals(m, h) && Locals(m, h, t, th, parked)
    requires t >= FIRST_CALLER && th.lib == Out && InSecond(th.main) && h.stage.exposed.Yes?
    ensures StepOk(m, h, t, SecondEffect(m, h, th.main, ch), parked)
  {
    OrderSecond(m, h, t, th, ch);
    RequestSecond(m, h, t, th, ch);
    FinishSecond(m, h, t, th, ch);
    ReinitSecond(m, h, t, th, ch);
    RendezvousSecond(m, h, t, th, ch);
    AnchorSecond(m, h, t, th, ch);
    JoinSecond(m, h, t, th, ch);
    HookSecond(m, h, t, th, ch);
    ReleaseSecond(m, h, t, th, ch);
    DisposalSecond(m, h, t, th, ch);
    PanicSecond(m, h, t, th, ch);
    PayloadSecond(m, h, t, th, ch);
    WakeSecond(m, h, t, th, parked, ch);
  }

  lemma StepConclude(m: Memory, h: History, t: nat, th: Thread, parked: bool, ch: Choice)
    requires Globals(m, h) && Locals(m, h, t, th, parked)
    requires t >= FIRST_CALLER && th.lib == Out && InConclude(th.main) && h.stage.exposed.Yes?
    ensures StepOk(m, h, t, ConcludeEffect(m, h, t, th.main, ch), parked)
  {
    OrderConclude(m, h, t, th, ch);
    RequestConclude(m, h, t, th, ch);
    FinishConclude(m, h, t, th, ch);
    ReinitConclude(m, h, t, th, ch);
    RendezvousConclude(m, h, t, th, ch);
    AnchorConclude(m, h, t, th, ch);
    JoinConclude(m, h, t, th, ch);
    HookConclude(m, h, t, th, ch);
    ReleaseConclude(m, h, t, th, ch);
    DisposalConclude(m, h, t, th, ch);
    if th.main.RPoll? {
      PanicConcludePoll(m, h, t, th, ch);
    } else {
      PanicConcludeEnd(m, h, t, th, ch);
    }
    PayloadConclude(m, h, t, th, ch);
    if th.main.RPoll? {
      WakeConcludePoll(m, h, t, th, parked, ch);
    } else {
      WakeConcludeEnd(m, h, t, th, parked, ch);
    }
  }

}
