/**
 First layer of the invariant: the reason, the host fault that precedes it, and
 the quiet start. Each layer has a global part over the shared memory, a local
 part every thread keeps, and a guarantee each step gives to the other threads.
 */
module TerminalOrder {
  import opened Wrappers
  import opened TerminalMemory
  import opened TerminalProtocol

  /** From the admission of begin_reinit to end_reinit. */
  predicate Active(main: Main) {
    || InCallback(main) || InSubmission(main) || InAwait(main) || InSecond(main)
    || main.RPoll? || main.REnd?
  }

  /** A reinitialization that has submitted its operation; its schedule may run on a live instance. */
  predicate Submitter(t: nat, main: Main) {
    t >= FIRST_CALLER && (main.RRetireNotify? || main.RConstructNotify?)
  }

  predicate WayFits(m: Memory, t: nat, main: Main, c: Cause, w: Way) {
    match w
    case BySignal => true
    case ByPanic(_) => c == Fault
    case ByHookPanic(_) => c == Fault && Terminal(m)
    case ByReject => c == Fault && (Terminal(m) || Submitter(t, main))
    case ByEmptyFactory => c == SetupFailed && t == STARTUP && main == SDropAnchor
  }

  /** A fault-class commit is preceded by the host fault of the same thread. */
  predicate Reported(h: History, c: Cause, w: Way) {
    FaultClass(c) && !w.ByEmptyFactory? ==> h.hostFaulted.Yes?
  }

  /** What holds at each position of the library chain; past its commit a thread sees a terminal instance. */
  predicate LibFits(m: Memory, h: History, t: nat, th: Thread) {
    match th.lib
    case Out => true
    case HostFault(c, w) => FaultClass(c) && !w.ByEmptyFactory? && WayFits(m, t, th.main, c, w)
    case LoadReason(c, w) => WayFits(m, t, th.main, c, w) && Reported(h, c, w)
    case SwapReason(c, w, seen) => WayFits(m, t, th.main, c, w) && Reported(h, c, w) && MayReplace(seen, c)
    case Schedule => Terminal(m) || Submitter(t, th.main)
    case Spawn => Terminal(m) || Submitter(t, th.main)
    case Reject => Terminal(m) || Submitter(t, th.main)
    case RejectNotify => Terminal(m) || Submitter(t, th.main)
    case _ => Terminal(m)
  }

  predicate OnEmptyExit(lib: Lib) {
    match lib
    case Out => true
    case LoadReason(_, w) => w.ByEmptyFactory?
    case SwapReason(_, w, _) => w.ByEmptyFactory?
    case _ => false
  }

  /** Nothing but startup has run yet. */
  predicate Quiet(h: History) {
    h.stage.exposed.No? && h.stage.taskSpawned.No? && h.stage.workerStarted.No?
  }

  /** As admitted, except for the reason and the anchor. */
  predicate Pristine(m: Memory, h: History) {
    && Quiet(h)
    && m.uncertain.No? && m.ctl.request.No? && m.ctl.finish.No? && m.ctl.requestState == Unregistered
    && m.ctl.finishState == FinishIdle && m.ctl.published.No? && m.ctl.completion == None && m.cell.activeReinit.No?
    && m.cell.operation == None && m.cell.priorPending.No? && m.vtablePublished.No? && m.res.initialResult == None
    && m.res.held == {} && h.panics.panicked == {} && h.duty.wakeDue.No? && h.runs.everStopped.No?
    && h.ops.executing == None
  }

  ghost predicate OrderGlobal(m: Memory, h: History) {
    && m.reason <= 4
    && (HasFault(m) ==> h.hostFaulted.Yes? || h.stage.exposed.No?)
    && (h.stage.emptied.Yes? ==> Pristine(m, h))
  }

  predicate OrderLocal(m: Memory, h: History, t: nat, th: Thread) {
    && LibFits(m, h, t, th)
    && (t >= FIRST_CALLER && h.stage.exposed.No? ==> th == Thread(Out, Rest))
    && (t == TASK && h.stage.taskSpawned.No? ==> th == Thread(Out, THandshake))
    && (t == WORKER && h.stage.workerStarted.No? ==> th == Thread(Out, WStart))
    && (t == STARTUP && th.main == SParse ==> th.lib == Out && Pristine(m, h) && m.reason == 0 && m.anchored.Yes?)
    && (t == STARTUP && th.main == SDropAnchor ==>
          Pristine(m, h) && m.anchored.Yes? && OnEmptyExit(th.lib))
    && (t == STARTUP && h.stage.emptied.Yes? ==> th == Thread(Out, SEnd))
  }

  predicate OrderGuarantee(t: nat, m: Memory, h: History, m': Memory, h': History) {
    && (Terminal(m) ==> Terminal(m'))
    && (h.hostFaulted.Yes? ==> h'.hostFaulted.Yes?)
    && (h.stage.exposed.Yes? ==> h'.stage.exposed.Yes?)
    && (h.stage.taskSpawned.Yes? ==> h'.stage.taskSpawned.Yes?)
    && (h.stage.workerStarted.Yes? ==> h'.stage.workerStarted.Yes?)
    && (t != STARTUP ==> h'.stage.emptied == h.stage.emptied)
    && (t != STARTUP ==> !Quiet(h))
  }

  /** At most one cause is committed, and the reason follows Override. */
  predicate ReasonMoves(m: Memory, h: History, m': Memory, h': History) {
    || (m'.reason == m.reason && h'.log == h.log)
    || (|h'.log| == |h.log| + 1 && h'.log == h.log + [h'.log[|h.log|]]
        && m'.reason == Override(m.reason, h'.log[|h.log|]))
  }

  ghost predicate OrderStep(m: Memory, h: History, t: nat, e: Effect) {
    && OrderGlobal(e.m, e.h)
    && OrderLocal(e.m, e.h, t, e.th)
    && OrderGuarantee(t, m, h, e.m, e.h)
    && ReasonMoves(m, h, e.m, e.h)
  }

  lemma OrderStable(m: Memory, h: History, m': Memory, h': History, t: nat, u: nat, th: Thread)
    requires u != t && OrderLocal(m, h, u, th) && OrderGuarantee(t, m, h, m', h')
    ensures OrderLocal(m', h', u, th)
  {
  }

  lemma OrderCommitHost(m: Memory, h: History, t: nat, th: Thread, ch: Choice)
    requires OrderGlobal(m, h) && OrderLocal(m, h, t, th)
    requires InCommit(th.lib)
    requires th.lib.HostFault?
    ensures OrderStep(m, h, t, CommitEffect(m, h, t, th, ch))
  {
  }

  lemma OrderCommitLoad(m: Memory, h: History, t: nat, th: Thread, ch: Choice)
    requires OrderGlobal(m, h) && OrderLocal(m, h, t, th)
    requires InCommit(th.lib)
    requires th.lib.LoadReason?
    ensures OrderStep(m, h, t, CommitEffect(m, h, t, th, ch))
  {
  }

  lemma OrderCommitSwap(m: Memory, h: History, t: nat, th: Thread, ch: Choice)
    requires OrderGlobal(m, h) && OrderLocal(m, h, t, th)
    requires InCommit(th.lib)
    requires th.lib.SwapReason? && m.reason == th.lib.seen
    ensures OrderStep(m, h, t, CommitEffect(m, h, t, th, ch))
  {
  }

  lemma OrderCommitLost(m: Memory, h: History, t: nat, th: Thread, ch: Choice)
    requires OrderGlobal(m, h) && OrderLocal(m, h, t, th)
    requires InCommit(th.lib)
    requires th.lib.SwapReason? && m.reason != th.lib.seen
    ensures OrderStep(m, h, t, CommitEffect(m, h, t, th, ch))
  {
  }

  lemma OrderRequest(m: Memory, h: History, t: nat, th: Thread, ch: Choice)
    requires OrderGlobal(m, h) && OrderLocal(m, h, t, th)
    requires InRequest(th.lib)
    ensures OrderStep(m, h, t, RequestEffect(m, h, t, th, ch))
  {
  }

  lemma OrderHookPanic(m: Memory, h: History, t: nat, th: Thread)
    requires OrderGlobal(m, h) && OrderLocal(m, h, t, th)
    requires InHookPanic(th.lib)
    ensures OrderStep(m, h, t, HookPanicEffect(m, h, t, th))
  {
  }

  lemma OrderMark(m: Memory, h: History, t: nat, th: Thread)
    requires OrderGlobal(m, h) && OrderLocal(m, h, t, th)
    requires InMark(th.lib)
    ensures OrderStep(m, h, t, MarkEffect(m, h, th))
  {
  }

  lemma OrderSchedule(m: Memory, h: History, t: nat, th: Thread, ch: Choice)
    requires OrderGlobal(m, h) && OrderLocal(m, h, t, th)
    requires InSchedule(th.lib)
    ensures OrderStep(m, h, t, ScheduleEffect(m, h, t, th, ch))
  {
    var e := ScheduleEffect(m, h, t, th, ch);
    assert OrderStep(m, h, t, e);
  }

  lemma OrderParse(m: Memory, h: History, th: Thread, ch: Choice)
    requires OrderGlobal(m, h) && OrderLocal(m, h, STARTUP, th)
    requires th.lib == Out && InParse(th.main)
    ensures OrderStep(m, h, STARTUP, ParseEffect(m, h, th.main, ch))
  {
  }

  lemma OrderFactory(m: Memory, h: History, th: Thread, ch: Choice)
    requires OrderGlobal(m, h) && OrderLocal(m, h, STARTUP, th)
    requires th.lib == Out && InFactory(th.main)
    ensures OrderStep(m, h, STARTUP, FactoryEffect(m, h, th.main, ch))
  {
  }

  lemma OrderAttach(m: Memory, h: History, th: Thread, ch: Choice)
    requires OrderGlobal(m, h) && OrderLocal(m, h, STARTUP, th)
    requires th.lib == Out && InAttach(th.main)
    ensures OrderStep(m, h, STARTUP, AttachEffect(m, h, th.main, ch))
  {
    var e := AttachEffect(m, h, th.main, ch);
    assert OrderStep(m, h, STARTUP, e);
  }

  lemma OrderPublish(m: Memory, h: History, th: Thread)
    requires OrderGlobal(m, h) && OrderLocal(m, h, STARTUP, th)
    requires th.lib == Out && InPublish(th.main)
    ensures OrderStep(m, h, STARTUP, PublishEffect(m, h, th.main))
  {
  }

  lemma OrderTaskEnds(m: Memory, h: History, th: Thread, ch: Choice)
    requires OrderGlobal(m, h) && OrderLocal(m, h, TASK, th)
    requires th.lib == Out && h.stage.taskSpawned.Yes?
    requires th.main.THandshake? || th.main.TPoll?
    ensures OrderStep(m, h, TASK, TaskEffect(m, h, th.main, ch))
  {
  }

  lemma OrderTaskSets(m: Memory, h: History, th: Thread, ch: Choice)
    requires OrderGlobal(m, h) && OrderLocal(m, h, TASK, th)
    requires th.lib == Out && h.stage.taskSpawned.Yes?
    requires !th.main.THandshake? && !th.main.TPoll?
    ensures OrderStep(m, h, TASK, TaskEffect(m, h, th.main, ch))
  {
    var e := TaskEffect(m, h, th.main, ch);
    assert OrderStep(m, h, TASK, e);
  }

  lemma OrderLoop(m: Memory, h: History, th: Thread, parked: bool, ch: Choice)
    requires OrderGlobal(m, h) && OrderLocal(m, h, WORKER, th)
    requires th.lib == Out && InLoop(th.main) && h.stage.workerStarted.Yes?
    ensures OrderStep(m, h, WORKER, LoopEffect(m, h, th.main, parked, ch))
  {
  }

  lemma OrderOperation(m: Memory, h: History, th: Thread, ch: Choice)
    requires OrderGlobal(m, h) && OrderLocal(m, h, WORKER, th)
    requires th.lib == Out && InOperation(th.main) && h.stage.workerStarted.Yes?
    ensures OrderStep(m, h, WORKER, OperationEffect(m, h, th.main, ch))
  {
  }

  lemma OrderClosure(m: Memory, h: History, th: Thread, ch: Choice)
    requires OrderGlobal(m, h) && OrderLocal(m, h, WORKER, th)
    requires th.lib == Out && InClosure(th.main) && h.stage.workerStarted.Yes?
    ensures OrderStep(m, h, WORKER, ClosureEffect(m, h, th.main, ch))
  {
  }

  lemma OrderParsed(m: Memory, h: History, th: Thread, ch: Choice)
    requires OrderGlobal(m, h) && OrderLocal(m, h, WORKER, th)
    requires th.lib == Out && InParsed(th.main) && h.stage.workerStarted.Yes?
    ensures OrderStep(m, h, WORKER, ParsedEffect(m, h, th.main, ch))
  {
  }

  lemma OrderSettle(m: Memory, h: History, th: Thread, ch: Choice)
    requires OrderGlobal(m, h) && OrderLocal(m, h, WORKER, th)
    requires th.lib == Out && InSettle(th.main) && h.stage.workerStarted.Yes?
    ensures OrderStep(m, h, WORKER, SettleEffect(m, h, th.main, ch))
  {
    var e := SettleEffect(m, h, th.main, ch);
    assert OrderStep(m, h, WORKER, e);
  }

  lemma OrderRelease(m: Memory, h: History, th: Thread, ch: Choice)
    requires OrderGlobal(m, h) && OrderLocal(m, h, WORKER, th)
    requires th.lib == Out && InRelease(th.main) && h.stage.workerStarted.Yes?
    ensures OrderStep(m, h, WORKER, ReleaseEffect(m, h, th.main, ch))
  {
    var e := ReleaseEffect(m, h, th.main, ch);
    assert OrderStep(m, h, WORKER, e);
  }

  lemma OrderFinish(m: Memory, h: History, th: Thread, ch: Choice)
    requires OrderGlobal(m, h) && OrderLocal(m, h, WORKER, th)
    requires th.lib == Out && InFinish(th.main) && h.stage.workerStarted.Yes?
    ensures OrderStep(m, h, WORKER, FinishEffect(m, h, th.main, ch))
  {
    var e := FinishEffect(m, h, th.main, ch);
    assert OrderStep(m, h, WORKER, e);
  }

  lemma OrderStart(m: Memory, h: History, t: nat, th: Thread, ch: Choice)
    requires OrderGlobal(m, h) && OrderLocal(m, h, t, th)
    requires !Quiet(h)
    requires t >= FIRST_CALLER && th == Thread(Out, Rest)
    ensures OrderStep(m, h, t, StartEffect(m, h, ch))
  {
  }

  lemma OrderShutdown(m: Memory, h: History, t: nat, th: Thread, parked: bool, ch: Choice)
    requires OrderGlobal(m, h) && OrderLocal(m, h, t, th)
    requires t >= FIRST_CALLER && th.lib == Out && InShutdown(th.main) && h.stage.exposed.Yes?
    ensures OrderStep(m, h, t, ShutdownEffect(m, h, th.main, parked, ch))
  {
    var e := ShutdownEffect(m, h, th.main, parked, ch);
    assert OrderStep(m, h, t, e);
  }

  lemma OrderVerdict(m: Memory, h: History, t: nat, th: Thread, ch: Choice)
    requires OrderGlobal(m, h) && OrderLocal(m, h, t, th)
    requires t >= FIRST_CALLER && th.lib == Out && InVerdict(th.main) && h.stage.exposed.Yes?
    ensures OrderStep(m, h, t, VerdictEffect(m, h, th.main, ch))
  {
    var e := VerdictEffect(m, h, th.main, ch);
    assert OrderStep(m, h, t, e);
  }

  lemma OrderOwner(m: Memory, h: History, t: nat, th: Thread)
    requires OrderGlobal(m, h) && OrderLocal(m, h, t, th)
    requires t >= FIRST_CALLER && th.lib == Out && InOwner(th.main) && h.stage.exposed.Yes?
    ensures OrderStep(m, h, t, OwnerEffect(m, h, th.main))
  {
  }

  lemma OrderAdmit(m: Memory, h: History, t: nat, th: Thread, ch: Choice)
    requires OrderGlobal(m, h) && OrderLocal(m, h, t, th)
    requires t >= FIRST_CALLER && th.lib == Out && InAdmit(th.main) && h.stage.exposed.Yes?
    ensures OrderStep(m, h, t, AdmitEffect(m, h, t, th.main, ch))
  {
    var e := AdmitEffect(m, h, t, th.main, ch);
    assert OrderGlobal(e.m, e.h);
    assert OrderGuarantee(t, m, h, e.m, e.h);
    assert OrderLocal(e.m, e.h, t, e.th);
  }

  lemma OrderCallback(m: Memory, h: History, t: nat, th: Thread, ch: Choice)
    requires OrderGlobal(m, h) && OrderLocal(m, h, t, th)
    requires t >= FIRST_CALLER && th.lib == Out && InCallback(th.main) && h.stage.exposed.Yes?
    ensures OrderStep(m, h, t, CallbackEffect(m, h, t, th.main, ch))
  {
    var e := CallbackEffect(m, h, t, th.main, ch);
    assert OrderGlobal(e.m, e.h);
    assert OrderGuarantee(t, m, h, e.m, e.h);
    assert OrderLocal(e.m, e.h, t, e.th);
  }

  lemma OrderSubmission(m: Memory, h: History, t: nat, th: Thread)
    requires OrderGlobal(m, h) && OrderLocal(m, h, t, th)
    requires t >= FIRST_CALLER && th.lib == Out && InSubmission(th.main) && h.stage.exposed.Yes?
    ensures OrderStep(m, h, t, SubmissionEffect(m, h, t, th.main))
  {
    var e := SubmissionEffect(m, h, t, th.main);
    assert OrderStep(m, h, t, e);
  }

  lemma OrderAwait(m: Memory, h: History, t: nat, th: Thread, parked: bool, ch: Choice)
    requires OrderGlobal(m, h) && OrderLocal(m, h, t, th)
    requires t >= FIRST_CALLER && th.lib == Out && InAwait(th.main) && h.stage.exposed.Yes?
    ensures OrderStep(m, h, t, AwaitEffect(m, h, th.main, parked, ch))
  {
  }

  lemma OrderSecond(m: Memory, h: History, t: nat, th: Thread, ch: Choice)
    requires OrderGlobal(m, h) && OrderLocal(m, h, t, th)
    requires t >= FIRST_CALLER && th.lib == Out && InSecond(th.main) && h.stage.exposed.Yes?
    ensures OrderStep(m, h, t, SecondEffect(m, h, th.main, ch))
  {
  }

  lemma OrderConclude(m: Memory, h: History, t: nat, th: Thread, ch: Choice)
    requires OrderGlobal(m, h) && OrderLocal(m, h, t, th)
    requires t >= FIRST_CALLER && th.lib == Out && InConclude(th.main) && h.stage.exposed.Yes?
    ensures OrderStep(m, h, t, ConcludeEffect(m, h, t, th.main, ch))
  {
    var e := ConcludeEffect(m, h, t, th.main, ch);
    assert OrderGlobal(e.m, e.h);
    assert OrderGuarantee(t, m, h, e.m, e.h);
    assert OrderLocal(e.m, e.h, t, e.th);
  }
}
