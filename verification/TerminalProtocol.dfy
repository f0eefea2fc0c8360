/**
 The interleaving model of one terminal instance. Every thread is at one
 program point of crates/tinybus-module/src/terminal.rs or of its callers in
 lib.rs; a step executes exactly one atomic region of one thread, so a run is
 any interleaving of the startup thread, the setup task, the physical worker and
 any number of callers. Foreign code (hooks, destructors, factories, the host
 query, thread creation) is a Choice: it may return, fail or panic.
 */
module TerminalProtocol {
  import opened Wrappers
  import opened TerminalMemory

  /** Why a thread is inside `commit`, hence where it continues afterwards. */
  datatype Way =
    | BySignal
    | ByPanic(kind: PayloadKind)
    | ByHookPanic(last: Bit)
    | ByReject
    | ByEmptyFactory

  /**
   Position inside signal, source_panic, run_request or schedule. `last` marks
   the run_request of a rejected worker, which schedules nothing afterwards.
   */
  datatype Lib =
    | Out
    | HostFault(cause: Cause, way: Way)
    | LoadReason(cause: Cause, way: Way)
    | SwapReason(cause: Cause, way: Way, seen: nat)
    | Mark(kind: PayloadKind)
    | MarkNotify(kind: PayloadKind)
    | Keep(kind: PayloadKind)
    | Request(last: Bit)
    | CallHook(last: Bit)
    | HookReturned(last: Bit)
    | HookNotify(last: Bit)
    | HookPanicked(last: Bit)
    | HookPanicNotify(last: Bit)
    | HookKeep(last: Bit)
    | Schedule
    | Spawn
    | Reject
    | RejectNotify

  /** The frame a thread returns to once it is out of the library chain. */
  datatype Main =
    | Rest
    // start_terminal_factory_mode
    | SParse | SDropAnchor | SFactory | SRegister | SRegistered | SLive | SRecheck | SSetup
    | SRuntime | STransport | SCallback | STask | SVtable | SFailed
    | SPublish | SPublishNotify | SPublished | SEnd
    // the initial setup task
    | THandshake | TObserve | TLive | TRecheck | TSetup | TPoll | TEnd(outcome: TaskOutcome) | TGone
    // run_finish on the physical worker: the loop and the construction closure it runs
    | WStart | WLoop | WWait | WExec(operation: Operation) | WConstructCheck(id: nat)
    | WParsed(id: nat) | WParsedCheck(id: nat) | WAck(failed: Bit, code: int) | WAckNotify
    // run_finish after the loop
    | WSettle | WJoin | WRetired(settled: Bit) | WDispose(k: nat)
    | WTakeFinish(settled: Bit, failed: Bit) | WFinish(failed: Bit, hook: Bit) | WRestore(hook: Bit)
    | WRelease(k: nat) | WOwners
    | WObserve(completed: Completion, released: Bit) | WChecks(completed: Completion, released: Bit)
    | WFinal(completed: Completion, failedChecks: Bit) | WNotify | WEnd
    // terminal_shutdown
    | HObserve | HStop | HWait | HSample(result: Completion) | HCheck(result: Completion)
    | HMark | HMarkNotify | HReturn(status: int)
    // SdkOwner::caught_panic and SdkOwner::drop
    | KMark(dropping: Bit) | KMarkNotify(dropping: Bit) | ODrop
    // terminal_reinitialize and the callback it runs
    | RLive | RRecheck | RBegin | RCallback | RInner | RInnerRecheck | RPrevious
    | RRetire | RRetireNotify | RRetireWait | RSecond | RSecondRecheck
    | RConstruct | RConstructNotify(id: nat) | RConstructWait(id: nat) | RPoll
    | REnd(status: int) | REndNotify(status: int)

  datatype Thread = Thread(lib: Lib, main: Main)

  /** What a caller thread that is at rest may start. */
  datatype Work = Raise(cause: Cause) | CaughtPanic | DropOwner(unwinding: Bit) | Shutdown | Reinitialize

  /** The outcome of the foreign or nondeterministic part of a step. */
  datatype Choice =
    | Go
    | Fails
    | Panics
    | Observed(seen: Option<Cause>)
    | Finished(with: Completion)
    | Cancels
    | Wakes
    | Start(work: Work)

  /**
   History variables: what happened and who is responsible for what. Steps only
   write them, except the enabling bits `exposed` (the factory received a view),
   `taskSpawned`, `cancelled` (the task was aborted) and `workerStarted`.
   */
  datatype History = History(
    log: seq<Cause>,
    hostFaulted: Bit,
    stage: Stage,
    duty: Duty,
    runs: Runs,
    panics: PanicLog,
    ops: Operations,
    release: ReleaseLog)

  datatype Stage = Stage(exposed: Bit, emptied: Bit, taskSpawned: Bit, cancelled: Bit, workerStarted: Bit)

  /** Which thread runs the hook, owes run_request, spawned the worker, reinitializes, owes a wake-up. */
  datatype Duty = Duty(requester: nat, debtor: nat, spawner: nat, reinitOwner: nat, waker: nat, wakeDue: Bit)

  datatype Runs = Runs(requestRuns: nat, finishRuns: nat, finishStopped: Bit, everStopped: Bit)

  /** How many panics were caught, of which kinds, on which threads, and the latest kind. */
  datatype PanicLog = PanicLog(
    total: nat, panicked: set<PayloadKind>, keeper: map<PayloadKind, nat>, latest: PayloadKind)

  datatype Operations = Operations(
    executing: Option<Operation>, lateOperations: nat, nextOperation: nat, answerOf: Option<nat>, answer: int)

  /** What was held after the join and when the release began, and where a destructor panicked. */
  datatype ReleaseLog = ReleaseLog(
    joined: set<Resource>, disposedAt: Option<nat>, atRelease: set<Resource>, stoppedAt: Option<nat>)

  const INITIAL_HISTORY := History(
    [], No,
    Stage(No, No, No, No, No),
    Duty(STARTUP, STARTUP, STARTUP, STARTUP, STARTUP, No),
    Runs(0, 0, No, No),
    PanicLog(0, {}, map[], OfStartup),
    Operations(None, 0, 0, None, 0),
    ReleaseLog({}, None, {}, None))

  const WORKER: nat := 0
  const STARTUP: nat := 1
  const TASK: nat := 2
  const FIRST_CALLER: nat := 3

  /** How a region treats the condition variable. */
  datatype Parking = Stay | WakeAll | ParkSelf | UnparkSelf

  /** What one region does: the new shared memory and history, and where its thread continues. */
  datatype Effect = Effect(m: Memory, h: History, th: Thread, parking: Parking)

  function Move(m: Memory, h: History, lib: Lib, main: Main): Effect {
    Effect(m, h, Thread(lib, main), Stay)
  }

  /** notify_all: every parked thread becomes runnable. */
  function Notify(m: Memory, h: History, lib: Lib, main: Main): Effect {
    Effect(m, h.(duty := h.duty.(wakeDue := No)), Thread(lib, main), WakeAll)
  }

  function Blocked(m: Memory, h: History, main: Main): Effect {
    Move(m, h, Out, main)
  }

  /** The region enables a waiter and its thread has still to notify. */
  function Wake(h: History, t: nat): History {
    h.(duty := h.duty.(waker := t, wakeDue := Yes))
  }

  function NotePanic(h: History, t: nat, k: PayloadKind): History {
    h.(panics := PanicLog(h.panics.total + 1, h.panics.panicked + {k}, h.panics.keeper[k := t], k))
  }

  predicate Panicked(h: History, k: PayloadKind) {
    k in h.panics.panicked
  }

  // ---------------------------------------------------------------- library chain

  function SignalEntry(c: Cause): Lib {
    if FaultClass(c) then HostFault(c, BySignal) else LoadReason(c, BySignal)
  }

  function PanicEntry(k: PayloadKind): Lib {
    HostFault(Fault, ByPanic(k))
  }

  function AfterCommit(w: Way): Lib {
    match w
    case BySignal => Request(No)
    case ByPanic(k) => Mark(k)
    case ByHookPanic(last) => HookPanicked(last)
    case ByReject => Request(Yes)
    case ByEmptyFactory => Out
  }

  function AfterRequest(last: Bit): Lib {
    if last.Yes? then Out else Schedule
  }

  /** A commit takes effect: at the winning swap, or at the read that shows it has nothing to do. */
  function Committed(m: Memory, h: History, t: nat, main: Main, c: Cause, w: Way, reason: nat): Effect {
    Move(m.(reason := reason),
         h.(log := h.log + [c], duty := h.duty.(debtor := if Terminal(m) then h.duty.debtor else t)),
         AfterCommit(w), main)
  }

  function CommitEffect(m: Memory, h: History, t: nat, th: Thread, ch: Choice): Effect {
    match th.lib
    case HostFault(c, w) => Move(m, h.(hostFaulted := Yes), LoadReason(c, w), th.main)
    case LoadReason(c, w) =>
      if MayReplace(m.reason, c) then Move(m, h, SwapReason(c, w, m.reason), th.main)
      else Committed(m, h, t, th.main, c, w, m.reason)
    case SwapReason(c, w, seen) =>
      if m.reason == seen then
        if ch == Fails then Move(m, h, th.lib, th.main)  // a weak exchange may fail spuriously
        else Committed(m, h, t, th.main, c, w, Code(c))
      else if MayReplace(m.reason, c) then Move(m, h, SwapReason(c, w, m.reason), th.main)
      else Committed(m, h, t, th.main, c, w, m.reason)
    case _ => Move(m, h, th.lib, th.main)
  }

  function RequestEffect(m: Memory, h: History, t: nat, th: Thread, ch: Choice): Effect {
    match th.lib
    case Request(last) =>
      if RequestDue(m) then
        Move(m.(ctl := m.ctl.(requestState := RequestRunning)),
             h.(duty := h.duty.(requester := t),
                runs := h.runs.(requestRuns := h.runs.requestRuns + if m.ctl.request.Yes? then 1 else 0)),
             CallHook(last), th.main)
      else Move(m, h, AfterRequest(last), th.main)
    case CallHook(last) =>
      if ch == Panics then Move(m, NotePanic(h, t, OfRequest), HostFault(Fault, ByHookPanic(last)), th.main)
      else Move(m, h, HookReturned(last), th.main)
    case HookReturned(last) => Move(SettleRequest(m, false), Wake(h, t), HookNotify(last), th.main)
    case HookNotify(last) => Notify(m, h, AfterRequest(last), th.main)
    case _ => Move(m, h, th.lib, th.main)
  }

  /** run_request after its hook panicked and the fault was committed. */
  function HookPanicEffect(m: Memory, h: History, t: nat, th: Thread): Effect {
    match th.lib
    case HookPanicked(last) => Move(SettleRequest(m, true), Wake(h, t), HookPanicNotify(last), th.main)
    case HookPanicNotify(last) => Notify(m, h, HookKeep(last), th.main)
    case HookKeep(last) => Move(m.(payloads := m.payloads + {OfRequest}), h, AfterRequest(last), th.main)
    case _ => Move(m, h, th.lib, th.main)
  }

  /** source_panic between its commit and run_request. */
  function MarkEffect(m: Memory, h: History, th: Thread): Effect {
    match th.lib
    case Mark(k) => Move(RecordUncertain(m), h, MarkNotify(k), th.main)
    case MarkNotify(k) => Notify(m, h, Keep(k), th.main)
    case Keep(k) => Move(m.(payloads := m.payloads + {k}), h, Request(No), th.main)
    case _ => Move(m, h, th.lib, th.main)
  }

  function ScheduleEffect(m: Memory, h: History, t: nat, th: Thread, ch: Choice): Effect {
    match th.lib
    case Schedule =>
      if m.ctl.finishState != FinishIdle then Move(m, h, Out, th.main)
      else Move(m.(ctl := m.ctl.(finishState := Submitted)), h.(duty := h.duty.(spawner := t)), Spawn, th.main)
    case Spawn =>
      if ch == Fails then Move(m, h, Reject, th.main)
      else Move(m, h.(stage := h.stage.(workerStarted := Yes)), Out, th.main)
    case Reject => Move(RejectWorker(m), Wake(h, t), RejectNotify, th.main)
    case RejectNotify => Notify(m, h, HostFault(Fault, ByReject), th.main)
    case _ => Move(m, h, th.lib, th.main)
  }

  predicate InCommit(lib: Lib) {
    lib.HostFault? || lib.LoadReason? || lib.SwapReason?
  }

  predicate InRequest(lib: Lib) {
    lib.Request? || lib.CallHook? || lib.HookReturned? || lib.HookNotify?
  }

  predicate InHookPanic(lib: Lib) {
    lib.HookPanicked? || lib.HookPanicNotify? || lib.HookKeep?
  }

  predicate InMark(lib: Lib) {
    lib.Mark? || lib.MarkNotify? || lib.Keep?
  }

  predicate InSchedule(lib: Lib) {
    lib.Schedule? || lib.Spawn? || lib.Reject? || lib.RejectNotify?
  }

  function LibEffect(m: Memory, h: History, t: nat, th: Thread, ch: Choice): Effect {
    if InCommit(th.lib) then CommitEffect(m, h, t, th, ch)
    else if InRequest(th.lib) then RequestEffect(m, h, t, th, ch)
    else if InHookPanic(th.lib) then HookPanicEffect(m, h, t, th)
    else if InMark(th.lib) then MarkEffect(m, h, th)
    else ScheduleEffect(m, h, t, th, ch)
  }

  // ---------------------------------------------------------------- startup thread

  /** A caught startup panic: source_panic(Startup), then the failure exit. */
  function StartupPanic(m: Memory, h: History): Effect {
    Move(m, NotePanic(h, STARTUP, OfStartup), PanicEntry(OfStartup), SFailed)
  }

  /** First half of is_live: a visible reason denies; otherwise the host is sampled and signalled. */
  function LiveProbe(m: Memory, h: History, ch: Choice, denied: Main, recheck: Main): Effect {
    if Terminal(m) then Move(m, h, Out, denied) else ObserveHost(m, h, ch, recheck)
  }

  /** Second half of is_live. */
  function LiveRecheck(m: Memory, h: History, denied: Main, live: Main): Effect {
    Move(m, h, Out, if Terminal(m) then denied else live)
  }

  /** observe_host: sample the host and signal whatever is seen. */
  function ObserveHost(m: Memory, h: History, ch: Choice, next: Main): Effect {
    Move(m, h, if ch.Observed? && ch.seen.Some? then SignalEntry(ch.seen.value) else Out, next)
  }

  /** Parsing of the configuration, with its exit that transferred nothing. */
  function ParseEffect(m: Memory, h: History, main: Main, ch: Choice): Effect {
    match main
    case SParse =>
      if ch == Panics then StartupPanic(m, h)
      else if ch == Fails then Move(m, h, LoadReason(SetupFailed, ByEmptyFactory), SDropAnchor)
      else Move(Hold(m, {Config}), h.(stage := h.stage.(exposed := Yes)), Out, SFactory)
    case SDropAnchor => Move(m.(anchored := No), h.(stage := h.stage.(emptied := Yes)), Out, SEnd)
    case _ => Blocked(m, h, main)
  }

  /** The factory and the registration of its hooks. */
  function FactoryEffect(m: Memory, h: History, main: Main, ch: Choice): Effect {
    match main
    case SFactory =>
      if ch == Panics then Move(m, NotePanic(h, STARTUP, OfFactory), PanicEntry(OfFactory), SFailed)
      else if ch == Fails then Move(m, h, SignalEntry(SetupFailed), SFailed)
      else Move(Hold(m, {Factory}), h, Out, SRegister)
    case SRegister =>
      Move(Register(m), h.(duty := h.duty.(debtor := if Terminal(m) then STARTUP else h.duty.debtor)),
           Out, SRegistered)
    case SRegistered => Move(m, h, if Terminal(m) then Request(No) else Out, SLive)
    case SLive => LiveProbe(m, h, ch, SFailed, SRecheck)
    case SRecheck => LiveRecheck(m, h, SFailed, SSetup)
    case _ => Blocked(m, h, main)
  }

  /** Attachment of the SDK resources. */
  function AttachEffect(m: Memory, h: History, main: Main, ch: Choice): Effect {
    match main
    case SSetup =>
      if ch == Panics then StartupPanic(m, h)
      else Move(Hold(Take(m, Config), {SetupFn, ReinitializerFactory}), h, Out, SRuntime)
    case SRuntime =>
      if ch == Panics then StartupPanic(m, h)
      else if ch == Fails then Move(m, h, SignalEntry(SetupFailed), SFailed)
      else Move(Hold(m, {Runtime}), h, Out, STransport)
    case STransport =>
      if ch == Panics then StartupPanic(m, h)
      else Move(AddOwner(Hold(m, {Inbound, Transport})), h, Out, SCallback)
    case SCallback =>
      var taken := Take(m, ReinitializerFactory);
      if ch == Panics then StartupPanic(taken, h)
      else Move(Hold(taken, {Callback}), h, Out, STask)
    case STask => Move(Hold(m, {InitialTask}), h.(stage := h.stage.(taskSpawned := Yes)), Out, SVtable)
    case _ => Blocked(m, h, main)
  }

  /** Publication of the vtable, and the exits. */
  function PublishEffect(m: Memory, h: History, main: Main): Effect {
    match main
    case SVtable => Move(m.(vtablePublished := Yes), h, Out, SPublish)
    case SFailed => Move(m, h, if Terminal(m) then Out else SignalEntry(SetupFailed), SPublish)
    case SPublish => Move(m.(ctl := m.ctl.(published := Yes)), Wake(h, STARTUP), Out, SPublishNotify)
    case SPublishNotify => Notify(m, h, Out, SPublished)
    case SPublished => Move(m, h, if Terminal(m) then Request(No) else Out, SEnd)
    case _ => Blocked(m, h, main)
  }

  predicate InAttach(main: Main) {
    main.SSetup? || main.SRuntime? || main.STransport? || main.SCallback? || main.STask?
  }

  predicate InPublish(main: Main) {
    main.SVtable? || main.SFailed? || main.SPublish? || main.SPublishNotify? || main.SPublished? || main.SEnd?
  }

  function StartupEffect(m: Memory, h: History, main: Main, ch: Choice): Effect {
    if InParse(main) then ParseEffect(m, h, main, ch)
    else if InFactory(main) then FactoryEffect(m, h, main, ch)
    else if InAttach(main) then AttachEffect(m, h, main, ch)
    else PublishEffect(m, h, main)
  }

  predicate InParse(main: Main) {
    main.SParse? || main.SDropAnchor?
  }

  predicate InFactory(main: Main) {
    main.SFactory? || main.SRegister? || main.SRegistered? || main.SLive? || main.SRecheck?
  }

  // ---------------------------------------------------------------- setup task

  function TaskPanic(m: Memory, h: History): Effect {
    Move(m, NotePanic(h, TASK, OfInitial), PanicEntry(OfInitial), TEnd(TaskErr))
  }

  function TaskEffect(m: Memory, h: History, main: Main, ch: Choice): Effect {
    if h.stage.taskSpawned.No? then Blocked(m, h, main)
    else match main
    case THandshake =>
      if h.stage.cancelled.Yes? && ch == Cancels then Move(m, h, Out, TEnd(TaskCancelled))
      else if ch == Panics then Move(m, h, Out, TEnd(TaskPanicked))
      else if ch == Fails then Move(m, h, SignalEntry(SetupFailed), TEnd(TaskErr))
      else Move(m, h, Out, TObserve)
    case TObserve =>
      Move(AddOwner(Hold(m, {ConnectionSlot})), h, Out, TLive)
    case TLive => LiveProbe(m, h, ch, TEnd(TaskOk), TRecheck)
    case TRecheck => LiveRecheck(m, h, TEnd(TaskOk), TSetup)
    case TSetup =>
      var taken := Take(m, SetupFn);
      if SetupFn !in m.res.held then Move(m, h, Out, TEnd(TaskErr))
      else if ch == Panics then TaskPanic(taken, h)
      else Move(Hold(taken, {InitialFuture}), h, Out, TPoll)
    case TPoll =>
      if h.stage.cancelled.Yes? && ch == Cancels then Move(m, h, Out, TEnd(TaskCancelled))
      else if ch == Panics then TaskPanic(m, h)
      else if ch == Fails then Move(m, h, SignalEntry(SetupFailed), TEnd(TaskErr))
      else if ch.Observed? then ObserveHost(m, h, ch, TEnd(TaskOk))
      else Blocked(m, h, main)  // pending: polled again later
    case TEnd(outcome) => Move(m.(res := m.res.(initialResult := Some(outcome))), h, Out, TGone)
    case _ => Blocked(m, h, main)
  }

  // ---------------------------------------------------------------- physical worker

  /** Foreign code of kind `k` panicked under the worker's catch. */
  function WorkerPanic(m: Memory, h: History, k: PayloadKind, next: Main): Effect {
    Move(m, NotePanic(h, WORKER, k), PanicEntry(k), next)
  }

  function ConstructResult(m: Memory, h: History, id: nat, code: int): Effect {
    Move(m, h.(ops := h.ops.(answerOf := Some(id), answer := code)), Out, WAck(No, code))
  }

  function ConstructPanic(m: Memory, h: History, id: nat): Effect {
    WorkerPanic(m, h.(ops := h.ops.(answerOf := Some(id), answer := TB_PANICKED)), OfReinit, WAck(No, TB_PANICKED))
  }

  /** The reinitialization loop of run_finish. */
  function LoopEffect(m: Memory, h: History, main: Main, parked: bool, ch: Choice): Effect {
    match main
    case WStart => Blocked(m, h, if h.stage.workerStarted.Yes? then WLoop else WStart)
    case WLoop =>
      if m.cell.operation.Some? then
        Move(m.(cell := m.cell.(operation := None)),
             h.(ops := h.ops.(executing := m.cell.operation,
                              lateOperations := h.ops.lateOperations + if Terminal(m) then 1 else 0)),
             Out, WExec(m.cell.operation.value))
      else if WorkerMayLeave(m) then Move(m.(ctl := m.ctl.(finishState := FinishRunning)), h, Out, WSettle)
      else Effect(m, h, Thread(Out, WWait), ParkSelf)
    case WWait =>
      if parked && ch != Wakes then Blocked(m, h, WWait) else Effect(m, h, Thread(Out, WLoop), UnparkSelf)
    case WAck(failed, code) =>
      Move(Acknowledge(m, failed, code), Wake(h, WORKER).(ops := h.ops.(executing := None)),
           Out, WAckNotify)
    case WAckNotify => Notify(m, h, Out, WLoop)
    case _ => Blocked(m, h, main)
  }

  /** The operation the loop took: the drop of a future, or the start of the construction closure. */
  function OperationEffect(m: Memory, h: History, main: Main, ch: Choice): Effect {
    match main
    case WExec(operation) =>
      (match operation
       case Retire =>
         if ch == Panics then WorkerPanic(m, h, OfCleanup, WAck(Yes, TB_CLOSED))
         else Move(m, h, Out, WAck(No, TB_OK))
       case Construct(id) =>
         if Terminal(m) then ConstructResult(m, h, id, TB_CLOSED)
         else ObserveHost(m, h, ch, WConstructCheck(id)))
    case _ => Blocked(m, h, main)
  }

  /** The construction closure after its first live check began. */
  function ClosureEffect(m: Memory, h: History, main: Main, ch: Choice): Effect {
    match main
    case WConstructCheck(id) =>
      if Terminal(m) then ConstructResult(m, h, id, TB_CLOSED)
      else if ch == Fails then ConstructResult(m, h, id, TB_BAD_ARGUMENT)
      else if ch == Panics then ConstructPanic(m, h, id)
      else Move(Hold(m, {Config}), h, Out, WParsed(id))
    case _ => Blocked(m, h, main)
  }

  /** The construction closure once its configuration is attached. */
  function ParsedEffect(m: Memory, h: History, main: Main, ch: Choice): Effect {
    match main
    case WParsed(id) =>
      if Terminal(m) then ConstructResult(m, h, id, TB_CLOSED)
      else ObserveHost(m, h, ch, WParsedCheck(id))
    case WParsedCheck(id) =>
      if Terminal(m) then ConstructResult(m, h, id, TB_CLOSED)
      else
        var taken := Take(m, Config);
        if ch == Panics then ConstructPanic(taken, h, id)
        else ConstructResult(Hold(taken, {ReinitFuture}), h, id, TB_OK)
    case _ => Blocked(m, h, main)
  }

  predicate InOperation(main: Main) {
    main.WExec?
  }

  predicate InClosure(main: Main) {
    main.WConstructCheck?
  }

  predicate InParsed(main: Main) {
    main.WParsed? || main.WParsedCheck?
  }

  predicate InLoop(main: Main) {
    main.WStart? || main.WLoop? || main.WWait? || main.WAck? || main.WAckNotify?
  }

  function AfterFinish(m: Memory, h: History, lib: Lib, completed: Completion, failed: Bit): Effect {
    if completed == PhysicallyStopped && failed.No? then
      Move(m, h.(release := h.release.(atRelease := m.res.held)), lib, WRelease(0))
    else Move(m, h, lib, WObserve(completed, No))
  }

  /** What the k-th take of dispose_setup removes: a future, the callback, the request hook, a future. */
  function DisposeTake(m: Memory, k: nat): Memory {
    match k
    case 0 => Take(m, InitialFuture)
    case 1 => Take(m, Callback)
    case 2 => m.(ctl := m.ctl.(request := No))
    case _ => Take(m, ReinitFuture)
  }

  /** Is there anything for the k-th take to destroy? */
  predicate HoldsCapture(m: Memory, k: nat) {
    match k
    case 0 => InitialFuture in m.res.held
    case 1 => Callback in m.res.held
    case 2 => m.ctl.request.Yes?
    case _ => ReinitFuture in m.res.held
  }

  function NoteJoined(m: Memory, h: History): History {
    h.(release := h.release.(joined := m.res.held))
  }

  /** run_finish after the loop, up to the controller's finish hook. */
  function SettleEffect(m: Memory, h: History, main: Main, ch: Choice): Effect {
    match main
    case WSettle =>
      if InitialTask !in m.res.held then Move(m, NoteJoined(m, h), Out, WRetired(Yes))
      else if Runtime in m.res.held then
        Move(Take(m, InitialTask), h.(stage := h.stage.(cancelled := Yes)), Out, WJoin)
      else Move(m, h.(stage := h.stage.(cancelled := Yes)), Out, WRetired(No))
    case WJoin =>
      (match m.res.initialResult
       case None => Blocked(m, h, WJoin)  // block_on waits for the aborted task
       case Some(TaskErr) => Move(m, NoteJoined(m, h), SignalEntry(SetupFailed), WRetired(Yes))
       case Some(TaskPanicked) => WorkerPanic(m, NoteJoined(m, h), OfInitial, WRetired(Yes))
       case Some(_) => Move(m, NoteJoined(m, h), Out, WRetired(Yes)))
    case WRetired(settled) =>
      Move(m, h, Out, if settled.Yes? && m.cell.retirementFailed.No? then WDispose(0)
                      else WTakeFinish(settled, m.cell.retirementFailed))
    case WDispose(k) =>
      var taken := DisposeTake(m, k);
      if ch == Panics && HoldsCapture(m, k) then
        WorkerPanic(taken, h.(release := h.release.(disposedAt := Some(k))), OfCleanup, WTakeFinish(Yes, Yes))
      else Move(taken, h, Out, if k < 3 then WDispose(k + 1) else WTakeFinish(Yes, No))
    case WTakeFinish(settled, failed) =>
      Move(m.(ctl := m.ctl.(finish := No)), h, Out,
           if settled.Yes? then WFinish(failed, m.ctl.finish) else WRestore(m.ctl.finish))
    case WRestore(hook) => Move(m.(ctl := m.ctl.(finish := hook)), h, Out, WObserve(Uncertain, No))
    case _ => Blocked(m, h, main)
  }

  /** The controller's finish hook and the ordered release of the SDK's owners. */
  function ReleaseEffect(m: Memory, h: History, main: Main, ch: Choice): Effect {
    match main
    case WFinish(failed, hook) =>
      var ran := h.(runs := h.runs.(finishRuns := h.runs.finishRuns + 1));
      if hook.No? then AfterFinish(m, h, Out, PhysicallyStopped, failed)
      else if ch == Panics then
        AfterFinish(m, NotePanic(ran, WORKER, OfFinish), PanicEntry(OfFinish), Uncertain, failed)
      else if ch == Finished(PhysicallyStopped) then
        AfterFinish(m, ran.(runs := ran.runs.(finishStopped := Yes)), Out, PhysicallyStopped, failed)
      else AfterFinish(m, ran, Out, Uncertain, failed)
    case WRelease(k) =>
      if k >= RELEASES then Blocked(m, h, main)
      else
        var taken := Take(m, ReleaseAt(k));
        if ch == Panics && ReleaseAt(k) in m.res.held then
          WorkerPanic(taken, h.(release := h.release.(stoppedAt := Some(k))), OfCleanup,
                      WObserve(PhysicallyStopped, No))
        else Move(taken, h, Out, if k + 1 < RELEASES then WRelease(k + 1) else WOwners)
    case WOwners => Move(m, h, Out, WObserve(PhysicallyStopped, ToBit(m.res.owners == 0)))
    case _ => Blocked(m, h, main)
  }

  /** The final host sample, the final checks and the publication of the outcome. */
  function FinishEffect(m: Memory, h: History, main: Main, ch: Choice): Effect {
    match main
    case WObserve(completed, released) => ObserveHost(m, h, ch, WChecks(completed, released))
    case WChecks(completed, released) =>
      Move(m, h, Out, WFinal(completed, ToBit(released.No? || (HasFault(m) && m.vtablePublished.Yes?))))
    case WFinal(completed, failed) =>
      var done := Finalize(m, completed, failed);
      var ever := if done.ctl.completion == Some(PhysicallyStopped) then Yes else h.runs.everStopped;
      Move(done, Wake(h, WORKER).(runs := h.runs.(everStopped := ever)), Out, WNotify)
    case WNotify => Notify(m, h, Out, WEnd)
    case _ => Blocked(m, h, main)
  }

  predicate InSettle(main: Main) {
    main.WSettle? || main.WJoin? || main.WRetired? || main.WDispose? || main.WTakeFinish? || main.WRestore?
  }

  predicate InRelease(main: Main) {
    main.WFinish? || main.WRelease? || main.WOwners?
  }

  predicate InFinish(main: Main) {
    main.WObserve? || main.WChecks? || main.WFinal? || main.WNotify? || main.WEnd?
  }

  function WorkerEffect(m: Memory, h: History, main: Main, parked: bool, ch: Choice): Effect {
    if InLoop(main) then LoopEffect(m, h, main, parked, ch)
    else if InOperation(main) then OperationEffect(m, h, main, ch)
    else if InClosure(main) then ClosureEffect(m, h, main, ch)
    else if InParsed(main) then ParsedEffect(m, h, main, ch)
    else if InSettle(main) then SettleEffect(m, h, main, ch)
    else if InRelease(main) then ReleaseEffect(m, h, main, ch)
    else FinishEffect(m, h, main, ch)
  }

  // ---------------------------------------------------------------- callers

  /** A caller needs a view (after the factory was entered) or a token that still resolves. */
  predicate MayStart(m: Memory, h: History, work: Work) {
    && h.stage.exposed.Yes?
    && (work.Shutdown? || work.Reinitialize? ==> m.vtablePublished.Yes? && m.anchored.Yes?)
  }

  /** A caller at rest, outside every function of the instance. */
  function StartEffect(m: Memory, h: History, ch: Choice): Effect {
    if !ch.Start? || !MayStart(m, h, ch.work) then Blocked(m, h, Rest)
    else match ch.work
    case Raise(c) => Move(m, h, SignalEntry(c), Rest)
    case CaughtPanic => Move(m, h, Out, KMark(No))
    case DropOwner(unwinding) => Move(m, h, Out, if unwinding.Yes? then KMark(Yes) else ODrop)
    case Shutdown => Move(m, h, Out, HObserve)
    case Reinitialize => Move(m, h, Out, RLive)
  }

  /** terminal_shutdown, up to the end of its wait. */
  function ShutdownEffect(m: Memory, h: History, main: Main, parked: bool, ch: Choice): Effect {
    match main
    case HObserve => ObserveHost(m, h, ch, HStop)
    case HStop => Move(m, h, SignalEntry(Stop), HWait)
    case HWait =>
      if m.ctl.completion.Some? && !parked then Move(m, h, Out, HSample(m.ctl.completion.value))
      else if ch == Fails then  // the deadline passed; the lock is held again
        var result := if m.ctl.completion.Some? then m.ctl.completion.value else Uncertain;
        Effect(m, h, Thread(Out, HSample(result)), UnparkSelf)
      else if parked then Blocked(m, h, HWait)
      else Effect(m, h, Thread(Out, HWait), ParkSelf)
    case _ => Blocked(m, h, main)
  }

  /** terminal_shutdown after its wait: the final host sample and the verdict. */
  function VerdictEffect(m: Memory, h: History, main: Main, ch: Choice): Effect {
    match main
    case HSample(result) => ObserveHost(m, h, ch, HCheck(result))
    case HCheck(result) =>
      Move(m, h, Out, if result != PhysicallyStopped || HasFault(m) then HMark else HReturn(TB_OK))
    case HMark => Move(RecordUncertain(m), h, Out, HMarkNotify)
    case HMarkNotify => Notify(m, h, Out, HReturn(TB_PANICKED))
    case HReturn(_) => Move(m, h, Out, Rest)
    case _ => Blocked(m, h, main)
  }

  /** SdkOwner::caught_panic and SdkOwner::drop. */
  function OwnerEffect(m: Memory, h: History, main: Main): Effect {
    match main
    case KMark(dropping) => Move(RecordUncertain(m), h, Out, KMarkNotify(dropping))
    case KMarkNotify(dropping) => Notify(m, h, SignalEntry(Fault), if dropping.Yes? then ODrop else Rest)
    case ODrop =>
      if m.res.owners == 0 then Blocked(m, h, ODrop)
      else Move(m.(res := m.res.(owners := m.res.owners - 1)), h, Out, Rest)
    case _ => Blocked(m, h, main)
  }

  function SubmitEffect(m: Memory, h: History, t: nat, operation: Operation, next: Main): Effect {
    Move(Submit(m, operation),
         Wake(h, t).(ops := h.ops.(
             nextOperation := h.ops.nextOperation + if operation.Construct? then 1 else 0)),
         Schedule, next)
  }

  function ReinitPanic(m: Memory, h: History, t: nat, status: int): Effect {
    Move(m, NotePanic(h, t, OfReinit), PanicEntry(OfReinit), REnd(status))
  }

  /** Admission of terminal_reinitialize. */
  function AdmitEffect(m: Memory, h: History, t: nat, main: Main, ch: Choice): Effect {
    match main
    case RLive => LiveProbe(m, h, ch, Rest, RRecheck)
    case RRecheck => LiveRecheck(m, h, Rest, RBegin)
    case RBegin =>
      if ReinitAdmitted(m) then
        Move(m.(cell := m.cell.(activeReinit := Yes)), h.(duty := h.duty.(reinitOwner := t)), Out, RCallback)
      else Move(m, h, Out, Rest)
    case _ => Blocked(m, h, main)
  }

  /** The reinitialization callback up to the take of the previous future. */
  function CallbackEffect(m: Memory, h: History, t: nat, main: Main, ch: Choice): Effect {
    match main
    case RCallback =>
      if ch == Panics then ReinitPanic(m, h, t, TB_PANICKED)
      else Move(m, h, Out, if Callback in m.res.held then RInner else REnd(TB_CLOSED))
    case RInner => LiveProbe(m, h, ch, REnd(TB_CLOSED), RInnerRecheck)
    case RInnerRecheck => LiveRecheck(m, h, REnd(TB_CLOSED), RPrevious)
    case RPrevious =>
      if ConnectionSlot !in m.res.held then Move(m, h, Out, REnd(TB_CLOSED))
      else if ReinitFuture in m.res.held then Move(Take(m, ReinitFuture), h, Out, RRetire)
      else Move(m, h, Out, RSecond)
    case _ => Blocked(m, h, main)
  }

  /** retire_reinit and construct_reinit up to their waits. */
  function SubmissionEffect(m: Memory, h: History, t: nat, main: Main): Effect {
    match main
    case RRetire => SubmitEffect(m, h, t, Retire, RRetireNotify)
    case RRetireNotify => Notify(m, h, Out, RRetireWait)
    case RConstruct => SubmitEffect(m, h, t, Construct(h.ops.nextOperation), RConstructNotify(h.ops.nextOperation))
    case RConstructNotify(id) => Notify(m, h, Out, RConstructWait(id))
    case _ => Blocked(m, h, main)
  }

  /** Where a caller of retire_reinit continues once it no longer waits. */
  function AfterRetire(m: Memory): Main {
    if m.cell.retirementFailed.No? && m.ctl.finishState != SpawnFailed then RSecond else REnd(TB_CLOSED)
  }

  /** Where a caller of construct_reinit continues once it no longer waits. */
  function AfterConstruct(m: Memory): Main {
    var code := if m.ctl.finishState == SpawnFailed then TB_CLOSED else m.cell.constructionCode;
    if code == TB_OK then RPoll else REnd(code)
  }

  /** The waits of retire_reinit and construct_reinit; a wake-up may be spurious. */
  function AwaitEffect(m: Memory, h: History, main: Main, parked: bool, ch: Choice): Effect {
    if parked && ch != Wakes then Blocked(m, h, main)
    else if ReinitMustWait(m) then Effect(m, h, Thread(Out, main), ParkSelf)
    else Effect(m, h, Thread(Out, if main.RRetireWait? then AfterRetire(m) else AfterConstruct(m)), UnparkSelf)
  }

  /** The live check between retirement and construction. */
  function SecondEffect(m: Memory, h: History, main: Main, ch: Choice): Effect {
    match main
    case RSecond => LiveProbe(m, h, ch, REnd(TB_CLOSED), RSecondRecheck)
    case RSecondRecheck => LiveRecheck(m, h, REnd(TB_CLOSED), RConstruct)
    case _ => Blocked(m, h, main)
  }

  /** The poll of the new future, and end_reinit. */
  function ConcludeEffect(m: Memory, h: History, t: nat, main: Main, ch: Choice): Effect {
    match main
    case RPoll =>
      if ch == Panics then ReinitPanic(m, h, t, TB_CLOSED)
      else if ch == Fails then Move(m, h, SignalEntry(SetupFailed), REnd(TB_CLOSED))
      else if ch.Observed? && ch.seen.Some? then Move(m, h, SignalEntry(ch.seen.value), REnd(TB_CLOSED))
      else Move(m, h, Out, REnd(if Terminal(m) then TB_CLOSED else TB_OK))
    case REnd(status) => Move(m.(cell := m.cell.(activeReinit := No)), Wake(h, t), Out, REndNotify(status))
    case REndNotify(_) => Notify(m, h, Out, Rest)
    case _ => Blocked(m, h, main)
  }

  predicate InAdmit(main: Main) {
    main.RLive? || main.RRecheck? || main.RBegin?
  }

  predicate InCallback(main: Main) {
    main.RCallback? || main.RInner? || main.RInnerRecheck? || main.RPrevious?
  }

  predicate InShutdown(main: Main) {
    main.HObserve? || main.HStop? || main.HWait?
  }

  predicate InVerdict(main: Main) {
    main.HSample? || main.HCheck? || main.HMark? || main.HMarkNotify? || main.HReturn?
  }

  predicate InSubmission(main: Main) {
    main.RRetire? || main.RRetireNotify? || main.RConstruct? || main.RConstructNotify?
  }

  predicate InAwait(main: Main) {
    main.RRetireWait? || main.RConstructWait?
  }

  predicate InSecond(main: Main) {
    main.RSecond? || main.RSecondRecheck?
  }

  predicate InConclude(main: Main) {
    main.RPoll? || main.REnd? || main.REndNotify?
  }

  predicate InOwner(main: Main) {
    main.KMark? || main.KMarkNotify? || main.ODrop?
  }

  function CallerEffect(m: Memory, h: History, t: nat, main: Main, parked: bool, ch: Choice): Effect {
    if main.Rest? then StartEffect(m, h, ch)
    else if InAdmit(main) then AdmitEffect(m, h, t, main, ch)
    else if InCallback(main) then CallbackEffect(m, h, t, main, ch)
    else if InSubmission(main) then SubmissionEffect(m, h, t, main)
    else if InAwait(main) then AwaitEffect(m, h, main, parked, ch)
    else if InSecond(main) then SecondEffect(m, h, main, ch)
    else if InConclude(main) then ConcludeEffect(m, h, t, main, ch)
    else if InOwner(main) then OwnerEffect(m, h, main)
    else if InShutdown(main) then ShutdownEffect(m, h, main, parked, ch)
    else VerdictEffect(m, h, main, ch)
  }

  // ---------------------------------------------------------------- the whole system

  datatype Sys = Sys(m: Memory, h: History, parked: set<nat>, threads: map<nat, Thread>)

  function At(s: Sys, t: nat): Thread {
    if t in s.threads then s.threads[t] else Thread(Out, Rest)
  }

  function Init(): Sys {
    Sys(INITIAL_MEMORY, INITIAL_HISTORY, {},
        map[WORKER := Thread(Out, WStart), STARTUP := Thread(Out, SParse), TASK := Thread(Out, THandshake)])
  }

  /** One region of thread `t`; a thread that cannot move changes nothing. */
  function EffectOf(m: Memory, h: History, t: nat, th: Thread, parked: bool, ch: Choice): Effect {
    if th.lib != Out then LibEffect(m, h, t, th, ch)
    else if t == WORKER then WorkerEffect(m, h, th.main, parked, ch)
    else if t == STARTUP then StartupEffect(m, h, th.main, ch)
    else if t == TASK then TaskEffect(m, h, th.main, ch)
    else CallerEffect(m, h, t, th.main, parked, ch)
  }

  function Apply(s: Sys, t: nat, e: Effect): Sys {
    Sys(e.m, e.h,
        match e.parking
        case Stay => s.parked
        case WakeAll => {}
        case ParkSelf => s.parked + {t}
        case UnparkSelf => s.parked - {t},
        s.threads[t := e.th])
  }

  function Step(s: Sys, t: nat, ch: Choice): Sys {
    Apply(s, t, EffectOf(s.m, s.h, t, At(s, t), t in s.parked, ch))
  }

  datatype Event = Event(thread: nat, choice: Choice)

  /** The state after a run: any finite interleaving of steps. */
  function Run(s: Sys, events: seq<Event>): Sys
    decreases |events|
  {
    if events == [] then s
    else Run(Step(s, events[0].thread, events[0].choice), events[1..])
  }

  ghost predicate Reachable(s: Sys) {
    exists events: seq<Event> :: s == Run(Init(), events)
  }

  /** `later` follows `s` in some run. */
  ghost predicate Follows(s: Sys, later: Sys) {
    exists events: seq<Event> :: later == Run(s, events)
  }
}
