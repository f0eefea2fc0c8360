/**
 Second layer: the request hook. It runs at most once, and a terminal instance
 whose hook has not run always has a thread that still owes run_request.
 */
module TerminalRequest {
  import opened TerminalMemory
  import opened TerminalProtocol
  import opened TerminalOrder

  /** Between entering the hook and recording its outcome. */
  predicate InHook(lib: Lib) {
    match lib
    case CallHook(_) => true
    case HookReturned(_) => true
    case HookPanicked(_) => true
    case HostFault(_, w) => w.ByHookPanic?
    case LoadReason(_, w) => w.ByHookPanic?
    case SwapReason(_, w, _) => w.ByHookPanic?
    case _ => false
  }

  /** The thread will execute the head of run_request before it returns. */
  predicate OwesRequest(t: nat, th: Thread) {
    match th.lib
    case Out => t == STARTUP && th.main == SRegistered
    case HostFault(_, w) => !w.ByHookPanic?
    case LoadReason(_, w) => !w.ByHookPanic?
    case SwapReason(_, w, _) => !w.ByHookPanic?
    case Mark(_) => true
    case MarkNotify(_) => true
    case Keep(_) => true
    case Request(_) => true
    case _ => false
  }

  predicate BeforeRegister(main: Main) {
    main.SParse? || main.SDropAnchor? || main.SFactory? || main.SRegister?
  }

  /** The hook was entered. */
  predicate Ran(r: RequestState) {
    r == RequestRunning || r == RequestDone || r == RequestPanicked
  }

  predicate RequestGlobal(m: Memory, h: History) {
    && (m.ctl.requestState == RequestIdle ==> m.ctl.request.Yes?)
    && (Ran(m.ctl.requestState) ==> Terminal(m))
    && h.runs.requestRuns == (if Ran(m.ctl.requestState) then 1 else 0)
  }

  predicate RequestLocal(m: Memory, h: History, t: nat, th: Thread) {
    && (InHook(th.lib) <==> m.ctl.requestState == RequestRunning && h.duty.requester == t)
    && (RequestDue(m) && h.duty.debtor == t ==> OwesRequest(t, th))
    && (t == STARTUP && BeforeRegister(th.main) ==> m.ctl.requestState == Unregistered)
  }

  predicate RequestGuarantee(t: nat, m: Memory, h: History, m': Memory, h': History) {
    var (r, r') := (m.ctl.requestState, m'.ctl.requestState);
    && (r == RequestRunning && h.duty.requester != t ==> r' == r)
    && (h'.duty.requester != t ==> h'.duty.requester == h.duty.requester)
    && (r == RequestRunning && h.duty.requester != t ==> h'.duty.requester == h.duty.requester)
    && (r' == RequestRunning && r != RequestRunning ==> h'.duty.requester == t)
    && (r' == r || (r == Unregistered && r' == RequestIdle && t == STARTUP)
        || (r == RequestIdle && r' == RequestRunning) || (r == RequestRunning && Ran(r')))
    && (RequestDue(m') && h'.duty.debtor != t ==> h'.duty.debtor == h.duty.debtor && RequestDue(m))
  }

  predicate RequestStep(m: Memory, h: History, t: nat, e: Effect) {
    && RequestGlobal(e.m, e.h)
    && RequestLocal(e.m, e.h, t, e.th)
    && RequestGuarantee(t, m, h, e.m, e.h)
  }

  lemma RequestStable(m: Memory, h: History, m': Memory, h': History, t: nat, u: nat, th: Thread)
    requires u != t && RequestLocal(m, h, u, th) && RequestGuarantee(t, m, h, m', h')
    ensures RequestLocal(m', h', u, th)
  {
  }

  lemma RequestCommit(m: Memory, h: History, t: nat, th: Thread, ch: Choice)
    requires RequestGlobal(m, h) && RequestLocal(m, h, t, th)
    requires OrderLocal(m, h, t, th)
    requires InCommit(th.lib)
    ensures RequestStep(m, h, t, CommitEffect(m, h, t, th, ch))
  {
    var e := CommitEffect(m, h, t, th, ch);
    assert RequestGlobal(e.m, e.h);
    assert RequestGuarantee(t, m, h, e.m, e.h);
    assert RequestLocal(e.m, e.h, t, e.th);
  }

  lemma RequestRequest(m: Memory, h: History, t: nat, th: Thread, ch: Choice)
    requires RequestGlobal(m, h) && RequestLocal(m, h, t, th)
    requires OrderLocal(m, h, t, th)
    requires InRequest(th.lib)
    ensures RequestStep(m, h, t, RequestEffect(m, h, t, th, ch))
  {
  }

  lemma RequestHookPanic(m: Memory, h: History, t: nat, th: Thread)
    requires RequestGlobal(m, h) && RequestLocal(m, h, t, th)
    requires OrderLocal(m, h, t, th)
    requires InHookPanic(th.lib)
    ensures RequestStep(m, h, t, HookPanicEffect(m, h, t, th))
  {
  }

  lemma RequestMark(m: Memory, h: History, t: nat, th: Thread)
    requires RequestGlobal(m, h) && RequestLocal(m, h, t, th)
    requires InMark(th.lib)
    ensures RequestStep(m, h, t, MarkEffect(m, h, th))
  {
  }

  lemma RequestSchedule(m: Memory, h: History, t: nat, th: Thread, ch: Choice)
    requires RequestGlobal(m, h) && RequestLocal(m, h, t, th)
    requires InSchedule(th.lib)
    ensures RequestStep(m, h, t, ScheduleEffect(m, h, t, th, ch))
  {
  }

  lemma RequestParse(m: Memory, h: History, th: Thread, ch: Choice)
    requires RequestGlobal(m, h) && RequestLocal(m, h, STARTUP, th)
    requires th.lib == Out && InParse(th.main)
    ensures RequestStep(m, h, STARTUP, ParseEffect(m, h, th.main, ch))
  {
  }

  lemma RequestFactory(m: Memory, h: History, th: Thread, ch: Choice)
    requires RequestGlobal(m, h) && RequestLocal(m, h, STARTUP, th)
    requires th.lib == Out && InFactory(th.main)
    ensures RequestStep(m, h, STARTUP, FactoryEffect(m, h, th.main, ch))
  {
  }

  lemma RequestAttach(m: Memory, h: History, th: Thread, ch: Choice)
    requires RequestGlobal(m, h) && RequestLocal(m, h, STARTUP, th)
    requires th.lib == Out && InAttach(th.main)
    ensures RequestStep(m, h, STARTUP, AttachEffect(m, h, th.main, ch))
  {
    var e := AttachEffect(m, h, th.main, ch);
    assert RequestStep(m, h, STARTUP, e);
  }

  lemma RequestPublish(m: Memory, h: History, th: Thread)
    requires RequestGlobal(m, h) && RequestLocal(m, h, STARTUP, th)
    requires th.lib == Out && InPublish(th.main)
    ensures RequestStep(m, h, STARTUP, PublishEffect(m, h, th.main))
  {
  }

  lemma RequestTask(m: Memory, h: History, th: Thread, ch: Choice)
    requires RequestGlobal(m, h) && RequestLocal(m, h, TASK, th)
    requires th.lib == Out && h.stage.taskSpawned.Yes?
    ensures RequestStep(m, h, TASK, TaskEffect(m, h, th.main, ch))
  {
    var e := TaskEffect(m, h, th.main, ch);
    assert RequestGlobal(e.m, e.h);
    assert RequestGuarantee(TASK, m, h, e.m, e.h);
    assert RequestLocal(e.m, e.h, TASK, e.th);
  }

  lemma RequestLoop(m: Memory, h: History, th: Thread, parked: bool, ch: Choice)
    requires RequestGlobal(m, h) && RequestLocal(m, h, WORKER, th)
    requires th.lib == Out && InLoop(th.main) && h.stage.workerStarted.Yes?
    ensures RequestStep(m, h, WORKER, LoopEffect(m, h, th.main, parked, ch))
  {
  }

  lemma RequestOperation(m: Memory, h: History, th: Thread, ch: Choice)
    requires RequestGlobal(m, h) && RequestLocal(m, h, WORKER, th)
    requires th.lib == Out && InOperation(th.main) && h.stage.workerStarted.Yes?
    ensures RequestStep(m, h, WORKER, OperationEffect(m, h, th.main, ch))
  {
  }

  lemma RequestClosure(m: Memory, h: History, th: Thread, ch: Choice)
    requires RequestGlobal(m, h) && RequestLocal(m, h, WORKER, th)
    requires th.lib == Out && InClosure(th.main) && h.stage.workerStarted.Yes?
    ensures RequestStep(m, h, WORKER, ClosureEffect(m, h, th.main, ch))
  {
  }

  lemma RequestParsed(m: Memory, h: History, th: Thread, ch: Choice)
    requires RequestGlobal(m, h) && RequestLocal(m, h, WORKER, th)
    requires th.lib == Out && InParsed(th.main) && h.stage.workerStarted.Yes?
    ensures RequestStep(m, h, WORKER, ParsedEffect(m, h, th.main, ch))
  {
  }

  lemma RequestSettle(m: Memory, h: History, th: Thread, ch: Choice)
    requires RequestGlobal(m, h) && RequestLocal(m, h, WORKER, th)
    requires m.ctl.requestState != RequestIdle
    requires th.lib == Out && InSettle(th.main) && h.stage.workerStarted.Yes?
    ensures RequestStep(m, h, WORKER, SettleEffect(m, h, th.main, ch))
  {
  }

  lemma RequestRelease(m: Memory, h: History, th: Thread, ch: Choice)
    requires RequestGlobal(m, h) && RequestLocal(m, h, WORKER, th)
    requires th.lib == Out && InRelease(th.main) && h.stage.workerStarted.Yes?
    ensures RequestStep(m, h, WORKER, ReleaseEffect(m, h, th.main, ch))
  {
    var e := ReleaseEffect(m, h, th.main, ch);
    assert RequestStep(m, h, WORKER, e);
  }

  lemma RequestFinish(m: Memory, h: History, th: Thread, ch: Choice)
    requires RequestGlobal(m, h) && RequestLocal(m, h, WORKER, th)
    requires th.lib == Out && InFinish(th.main) && h.stage.workerStarted.Yes?
    ensures RequestStep(m, h, WORKER, FinishEffect(m, h, th.main, ch))
  {
  }

  lemma RequestStart(m: Memory, h: History, t: nat, th: Thread, ch: Choice)
    requires RequestGlobal(m, h) && RequestLocal(m, h, t, th)
    requires t >= FIRST_CALLER && th == Thread(Out, Rest)
    ensures RequestStep(m, h, t, StartEffect(m, h, ch))
  {
  }

  lemma RequestShutdown(m: Memory, h: History, t: nat, th: Thread, parked: bool, ch: Choice)
    requires RequestGlobal(m, h) && RequestLocal(m, h, t, th)
    requires t >= FIRST_CALLER && th.lib == Out && InShutdown(th.main) && h.stage.exposed.Yes?
    ensures RequestStep(m, h, t, ShutdownEffect(m, h, th.main, parked, ch))
  {
  }

  lemma RequestVerdict(m: Memory, h: History, t: nat, th: Thread, ch: Choice)
    requires RequestGlobal(m, h) && RequestLocal(m, h, t, th)
    requires t >= FIRST_CALLER && th.lib == Out && InVerdict(th.main) && h.stage.exposed.Yes?
    ensures RequestStep(m, h, t, VerdictEffect(m, h, th.main, ch))
  {
    var e := VerdictEffect(m, h, th.main, ch);
    assert RequestStep(m, h, t, e);
  }

  lemma RequestOwner(m: Memory, h: History, t: nat, th: Thread)
    requires RequestGlobal(m, h) && RequestLocal(m, h, t, th)
    requires t >= FIRST_CALLER && th.lib == Out && InOwner(th.main) && h.stage.exposed.Yes?
    ensures RequestStep(m, h, t, OwnerEffect(m, h, th.main))
  {
  }

  lemma RequestAdmit(m: Memory, h: History, t: nat, th: Thread, ch: Choice)
    requires RequestGlobal(m, h) && RequestLocal(m, h, t, th)
    requires t >= FIRST_CALLER && th.lib == Out && InAdmit(th.main) && h.stage.exposed.Yes?
    ensures RequestStep(m, h, t, AdmitEffect(m, h, t, th.main, ch))
  {
  }

  lemma RequestCallback(m: Memory, h: History, t: nat, th: Thread, ch: Choice)
    requires RequestGlobal(m, h) && RequestLocal(m, h, t, th)
    requires t >= FIRST_CALLER && th.lib == Out && InCallback(th.main) && h.stage.exposed.Yes?
    ensures RequestStep(m, h, t, CallbackEffect(m, h, t, th.main, ch))
  {
    var e := CallbackEffect(m, h, t, th.main, ch);
    assert RequestGlobal(e.m, e.h);
    assert RequestGuarantee(t, m, h, e.m, e.h);
    assert RequestLocal(e.m, e.h, t, e.th);
  }

  lemma RequestSubmission(m: Memory, h: History, t: nat, th: Thread)
    requires RequestGlobal(m, h) && RequestLocal(m, h, t, th)
    requires t >= FIRST_CALLER && th.lib == Out && InSubmission(th.main) && h.stage.exposed.Yes?
    ensures RequestStep(m, h, t, SubmissionEffect(m, h, t, th.main))
  {
    var e := SubmissionEffect(m, h, t, th.main);
    assert RequestStep(m, h, t, e);
  }

  lemma RequestAwait(m: Memory, h: History, t: nat, th: Thread, parked: bool, ch: Choice)
    requires RequestGlobal(m, h) && RequestLocal(m, h, t, th)
    requires t >= FIRST_CALLER && th.lib == Out && InAwait(th.main) && h.stage.exposed.Yes?
    ensures RequestStep(m, h, t, AwaitEffect(m, h, th.main, parked, ch))
  {
  }

  lemma RequestSecond(m: Memory, h: History, t: nat, th: Thread, ch: Choice)
    requires RequestGlobal(m, h) && RequestLocal(m, h, t, th)
    requires t >= FIRST_CALLER && th.lib == Out && InSecond(th.main) && h.stage.exposed.Yes?
    ensures RequestStep(m, h, t, SecondEffect(m, h, th.main, ch))
  {
  }

  lemma RequestConclude(m: Memory, h: History, t: nat, th: Thread, ch: Choice)
    requires RequestGlobal(m, h) && RequestLocal(m, h, t, th)
    requires t >= FIRST_CALLER && th.lib == Out && InConclude(th.main) && h.stage.exposed.Yes?
    ensures RequestStep(m, h, t, ConcludeEffect(m, h, t, th.main, ch))
  {
    var e := ConcludeEffect(m, h, t, th.main, ch);
    assert RequestStep(m, h, t, e);
  }
}
