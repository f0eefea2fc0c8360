/**
 The worker makes progress whatever the other threads do: it answers the
 operation a caller waits for, and once nobody needs it any more it leaves its
 loop. Progress is counted in steps the worker takes outside the library chain.
 */
module TerminalProgress {
  import opened Wrappers
  import opened TerminalMemory
  import opened TerminalProtocol
  import opened TerminalOrder
  import opened TerminalRequest
  import opened TerminalFinish
  import opened TerminalReinit
  import opened TerminalRendezvous
  import opened TerminalJoin
  import opened TerminalRelease
  import opened TerminalWake
  import opened TerminalInvariant
  import opened TerminalRuns
  import opened TerminalTheorems

  /** The worker moves its own frame: it is not inside the library and not asleep. */
  predicate Moves(s: Sys, e: Event) {
    e.thread == WORKER && At(s, WORKER).lib == Out && (WORKER in s.parked ==> e.choice == Wakes)
  }

  /** How many such steps a run contains. */
  function OwnSteps(s: Sys, events: seq<Event>): nat
    decreases |events|
  {
    if events == [] then 0
    else
      (if Moves(s, events[0]) then 1 else 0) + OwnSteps(Step(s, events[0].thread, events[0].choice), events[1..])
  }

  // ---------------------------------------------------------------- leaving the loop

  /** The worker runs, startup has ended and the instance is terminal. */
  predicate Closing(s: Sys) {
    && Terminal(s.m) && s.m.ctl.published.Yes?
    && s.h.stage.workerStarted.Yes? && s.m.ctl.finishState == Submitted
  }

  /**
   While the worker stays in its loop, either it may leave or a party is named
   that is still to move: the operation in the cell or in hand, the active
   caller, the thread that owes run_request, the thread inside the hook.
   */
  lemma LoopHasReason(s: Sys)
    requires Reachable(s) && Closing(s)
    ensures LoopFrame(At(s, WORKER).main)
    ensures || WorkerMayLeave(s.m)
            || s.m.cell.operation.Some? || s.h.ops.executing.Some?
            || (s.h.duty.reinitOwner >= FIRST_CALLER && Active(At(s, s.h.duty.reinitOwner).main))
            || OwesRequest(s.h.duty.debtor, At(s, s.h.duty.debtor))
            || InHook(At(s, s.h.duty.requester).lib)
  {
    Known(s, WORKER);
    Known(s, s.h.duty.reinitOwner);
    Known(s, s.h.duty.debtor);
    Known(s, s.h.duty.requester);
    ReasonNamed(s.m, s.h, At(s, WORKER), At(s, s.h.duty.reinitOwner), At(s, s.h.duty.debtor),
                At(s, s.h.duty.requester));
  }

  lemma ReasonNamed(m: Memory, h: History, worker: Thread, owner: Thread, debtor: Thread, requester: Thread)
    requires Terminal(m) && m.ctl.published.Yes? && h.stage.workerStarted.Yes? && m.ctl.finishState == Submitted
    requires JoinLocal(m, h, WORKER, worker) && FinishLocal(m, h, WORKER, worker)
    requires ReinitLocal(m, h, h.duty.reinitOwner, owner)
    requires RequestLocal(m, h, h.duty.debtor, debtor) && RequestLocal(m, h, h.duty.requester, requester)
    ensures LoopFrame(worker.main)
    ensures || WorkerMayLeave(m) || m.cell.operation.Some?
            || (h.duty.reinitOwner >= FIRST_CALLER && Active(owner.main))
            || OwesRequest(h.duty.debtor, debtor) || InHook(requester.lib)
  {
  }

  /** What the worker still has to do before it leaves a loop it may leave. */
  function StepsToExit(main: Main): (n: nat)
    ensures 1 <= n <= 2
  {
    if main.WLoop? then 1 else 2
  }

  /** What a move of a worker that may leave its loop amounts to. */
  predicate Exits(m: Memory, h: History, worker: Thread, parked: bool, ch: Choice, e: Effect) {
    || (worker.main.WLoop? && e.m.ctl.finishState == FinishRunning)
    || (!worker.main.WLoop? && e.m == m && e.h.stage == h.stage
        && e.th == if parked && ch != Wakes then worker else Thread(Out, WLoop))
  }

  lemma LoopLeaves(m: Memory, h: History, main: Main, parked: bool, ch: Choice)
    requires BetweenOperations(main) && h.stage.workerStarted.Yes? && WorkerMayLeave(m)
    requires parked ==> main.WWait?
    ensures Exits(m, h, Thread(Out, main), parked, ch, LoopEffect(m, h, main, parked, ch))
  {
  }

  /** The worker has left, or it still may leave and is closer to it by what it moved. */
  predicate CloserToExit(s: Sys, e: Event, next: Sys) {
    || Left(next.m)
    || (Closing(next) && WorkerMayLeave(next.m)
        && StepsToExit(At(next, WORKER).main) + (if Moves(s, e) then 1 else 0) <= StepsToExit(At(s, WORKER).main))
  }

  lemma OwnExitStep(s: Sys, ch: Choice)
    requires Inv(s) && Closing(s) && WorkerMayLeave(s.m)
    ensures CloserToExit(s, Event(WORKER, ch), Step(s, WORKER, ch))
  {
    assert Locals(s.m, s.h, WORKER, At(s, WORKER), WORKER in s.parked);
    var e := EffectOf(s.m, s.h, WORKER, At(s, WORKER), WORKER in s.parked, ch);
    AtAfter(s, WORKER, e, WORKER);
    OwnExit(s.m, s.h, At(s, WORKER), WORKER in s.parked, ch);
    ExitMoved(s, ch, Apply(s, WORKER, e), e);
  }

  lemma OwnExit(m: Memory, h: History, worker: Thread, parked: bool, ch: Choice)
    requires RendezvousGlobal(m, h) && RendezvousLocal(m, h, WORKER, worker) && WakeLocal(m, h, WORKER, worker, parked)
    requires FinishLocal(m, h, WORKER, worker) && JoinLocal(m, h, WORKER, worker) && WorkerMayLeave(m)
    requires h.stage.workerStarted.Yes? && m.ctl.finishState == Submitted
    ensures worker.lib == Out && (parked ==> worker.main.WWait?)
    ensures Exits(m, h, worker, parked, ch, EffectOf(m, h, WORKER, worker, parked, ch))
  {
    assert BetweenOperations(worker.main);
    LoopLeaves(m, h, worker.main, parked, ch);
    assert EffectOf(m, h, WORKER, worker, parked, ch) == LoopEffect(m, h, worker.main, parked, ch);
  }

  lemma ExitMoved(s: Sys, ch: Choice, next: Sys, e: Effect)
    requires Closing(s) && WorkerMayLeave(s.m) && At(s, WORKER).lib == Out
    requires WORKER in s.parked ==> At(s, WORKER).main.WWait?
    requires Exits(s.m, s.h, At(s, WORKER), WORKER in s.parked, ch, e)
    requires next.m == e.m && next.h == e.h && At(next, WORKER) == e.th
    ensures CloserToExit(s, Event(WORKER, ch), next)
  {
  }

  lemma ExitKept(m: Memory, h: History, t: nat, th: Thread, e: Effect, parked: bool)
    requires Idles(m, h, th, e) || StepOk(m, h, t, e, parked)
    requires t != WORKER && Terminal(m) && WorkerMayLeave(m)
    requires h.stage.workerStarted.Yes? && m.ctl.finishState == Submitted
    ensures Terminal(e.m) && WorkerMayLeave(e.m)
    ensures e.h.stage.workerStarted.Yes? && e.m.ctl.finishState == Submitted
  {
  }

  lemma OtherExitStep(s: Sys, t: nat, ch: Choice)
    requires Inv(s) && Closing(s) && WorkerMayLeave(s.m) && t != WORKER
    ensures CloserToExit(s, Event(t, ch), Step(s, t, ch))
  {
    assert Locals(s.m, s.h, t, At(s, t), t in s.parked);
    EffectOk(s.m, s.h, t, At(s, t), t in s.parked, ch);
    var e := EffectOf(s.m, s.h, t, At(s, t), t in s.parked, ch);
    ExitKept(s.m, s.h, t, At(s, t), e, t in s.parked);
    AtAfter(s, t, e, WORKER);
    StillClosing(s, Event(t, ch), Apply(s, t, e));
  }

  lemma StillClosing(s: Sys, e: Event, next: Sys)
    requires e.thread != WORKER && At(next, WORKER) == At(s, WORKER)
    requires Closing(next) && WorkerMayLeave(next.m)
    ensures CloserToExit(s, e, next)
  {
  }

  lemma ExitStep(s: Sys, e: Event)
    requires Inv(s) && Closing(s) && WorkerMayLeave(s.m)
    ensures CloserToExit(s, e, Step(s, e.thread, e.choice))
  {
    if e.thread == WORKER {
      OwnExitStep(s, e.choice);
    } else {
      OtherExitStep(s, e.thread, e.choice);
    }
  }

  lemma {:induction false} RunLeaves(s: Sys, events: seq<Event>)
    requires Inv(s) && Closing(s) && WorkerMayLeave(s.m)
    requires OwnSteps(s, events) >= StepsToExit(At(s, WORKER).main)
    ensures Left(Run(s, events).m)
    decreases |events|
  {
    if events != [] {
      var next := Step(s, events[0].thread, events[0].choice);
      InvStep(s, events[0].thread, events[0].choice);
      ExitStep(s, events[0]);
      if Left(next.m) {
        RunPersists(next, events[1..]);
      } else {
        RunLeaves(next, events[1..]);
      }
    }
  }

  /**
   Once nobody needs the worker, no interleaving keeps it: any run in which it
   takes two steps of its own takes it out of its loop.
   */
  lemma WorkerLeaves(s: Sys, events: seq<Event>)
    requires Reachable(s) && Closing(s) && WorkerMayLeave(s.m)
    requires OwnSteps(s, events) >= 2
    ensures Left(Run(s, events).m)
  {
    ReachableInv(s);
    RunLeaves(s, events);
  }

  // ---------------------------------------------------------------- publishing a completion

  /** What a worker that has left its loop still has to do before it publishes. */
  function StepsToCompletion(main: Main): (n: nat)
    ensures n <= 21
  {
    match main
    case WSettle => 21
    case WJoin => 20
    case WRetired(_) => 19
    case WDispose(k) => if k < CAPTURES then 18 - k else 0
    case WTakeFinish(_, _) => 14
    case WFinish(_, _) => 13
    case WRelease(k) => if k < RELEASES then 12 - k else 0
    case WOwners => 4
    case WObserve(_, _) => 3
    case WChecks(_, _) => 2
    case WFinal(_, _) => 1
    case _ => 0
  }

  /** Nothing is left to join: the setup task has ended or was never spawned. */
  predicate TaskOver(m: Memory, h: History) {
    h.stage.taskSpawned.No? || m.res.initialResult.Some?
  }

  /** One step of a worker that has left its loop. */
  predicate Completes(main: Main, e: Effect) {
    e.m.ctl.completion.Some? || StepsToCompletion(e.th.main) < StepsToCompletion(main)
  }

  lemma SettleCompletes(m: Memory, h: History, main: Main, ch: Choice)
    requires InSettle(main) && !main.WRestore? && (main.WJoin? ==> m.res.initialResult.Some?)
    requires main.WDispose? ==> main.k < CAPTURES
    requires main.WRetired? || main.WTakeFinish? ==> main.settled.Yes?
    ensures Completes(main, SettleEffect(m, h, main, ch))
  {
  }

  lemma ReleaseCompletes(m: Memory, h: History, main: Main, ch: Choice)
    requires InRelease(main) && (main.WRelease? ==> main.k < RELEASES)
    ensures Completes(main, ReleaseEffect(m, h, main, ch))
  {
  }

  lemma FinishCompletes(m: Memory, h: History, main: Main, ch: Choice)
    requires main.WObserve? || main.WChecks? || main.WFinal?
    ensures Completes(main, FinishEffect(m, h, main, ch))
  {
  }

  lemma EffectCompletes(m: Memory, h: History, worker: Thread, parked: bool, ch: Choice)
    requires FinishGlobal(m, h) && FinishLocal(m, h, WORKER, worker) && JoinLocal(m, h, WORKER, worker)
    requires ReleaseLocal(m, h, WORKER, worker)
    requires Left(m) && TaskOver(m, h) && m.ctl.completion == None && worker.lib == Out
    ensures Completes(worker.main, EffectOf(m, h, WORKER, worker, parked, ch))
  {
    if InSettle(worker.main) {
      SettleCompletes(m, h, worker.main, ch);
    } else if InRelease(worker.main) {
      ReleaseCompletes(m, h, worker.main, ch);
    } else {
      FinishCompletes(m, h, worker.main, ch);
    }
  }

  /** Once startup has ended, a setup task that is over stays over. */
  lemma TaskStaysOver(m: Memory, h: History, t: nat, th: Thread, e: Effect, parked: bool)
    requires Idles(m, h, th, e) || StepOk(m, h, t, e, parked)
    requires m.ctl.published.Yes? && TaskOver(m, h)
    ensures TaskOver(e.m, e.h)
  {
  }

  /** A completion is published, or the worker is closer to it by what it moved. */
  predicate CloserToCompletion(s: Sys, e: Event, next: Sys) {
    || next.m.ctl.completion.Some?
    || StepsToCompletion(At(next, WORKER).main) + (if Moves(s, e) then 1 else 0)
         <= StepsToCompletion(At(s, WORKER).main)
  }

  lemma OwnCompletionStep(s: Sys, ch: Choice)
    requires Inv(s) && Left(s.m) && TaskOver(s.m, s.h) && s.m.ctl.completion == None
    ensures CloserToCompletion(s, Event(WORKER, ch), Step(s, WORKER, ch))
  {
    assert Locals(s.m, s.h, WORKER, At(s, WORKER), WORKER in s.parked);
    var e := EffectOf(s.m, s.h, WORKER, At(s, WORKER), WORKER in s.parked, ch);
    AtAfter(s, WORKER, e, WORKER);
    if At(s, WORKER).lib == Out {
      EffectCompletes(s.m, s.h, At(s, WORKER), WORKER in s.parked, ch);
      Completed(s, Event(WORKER, ch), Apply(s, WORKER, e), e);
    } else {
      LibKeepsFrame(s.m, s.h, WORKER, At(s, WORKER), ch);
      NotMoved(s, Event(WORKER, ch), Apply(s, WORKER, e));
    }
  }

  lemma Completed(s: Sys, event: Event, next: Sys, e: Effect)
    requires Completes(At(s, WORKER).main, e) && next.m == e.m && At(next, WORKER) == e.th
    ensures CloserToCompletion(s, event, next)
  {
  }

  lemma NotMoved(s: Sys, e: Event, next: Sys)
    requires !Moves(s, e) && At(next, WORKER).main == At(s, WORKER).main
    ensures CloserToCompletion(s, e, next)
  {
  }

  lemma OtherCompletionStep(s: Sys, t: nat, ch: Choice)
    requires t != WORKER
    ensures CloserToCompletion(s, Event(t, ch), Step(s, t, ch))
  {
    var e := EffectOf(s.m, s.h, t, At(s, t), t in s.parked, ch);
    AtAfter(s, t, e, WORKER);
    NotMoved(s, Event(t, ch), Apply(s, t, e));
  }

  lemma StepKeepsTaskOver(s: Sys, t: nat, ch: Choice)
    requires Inv(s) && s.m.ctl.published.Yes? && TaskOver(s.m, s.h)
    ensures TaskOver(Step(s, t, ch).m, Step(s, t, ch).h)
  {
    assert Locals(s.m, s.h, t, At(s, t), t in s.parked);
    EffectOk(s.m, s.h, t, At(s, t), t in s.parked, ch);
    var e := EffectOf(s.m, s.h, t, At(s, t), t in s.parked, ch);
    TaskStaysOver(s.m, s.h, t, At(s, t), e, t in s.parked);
  }

  /** The worker has left its loop, or nobody needs it there any more. */
  predicate Unneeded(s: Sys) {
    Left(s.m) || (Closing(s) && WorkerMayLeave(s.m))
  }

  function StepsToPublish(s: Sys): nat {
    if Left(s.m) then StepsToCompletion(At(s, WORKER).main) else StepsToExit(At(s, WORKER).main) + 21
  }

  lemma CompletionStep(s: Sys, e: Event)
    requires Inv(s) && Unneeded(s) && TaskOver(s.m, s.h) && s.m.ctl.completion == None
    ensures var next := Step(s, e.thread, e.choice);
      && TaskOver(next.m, next.h)
      && (next.m.ctl.completion == None ==>
            Unneeded(next) && StepsToPublish(next) + (if Moves(s, e) then 1 else 0) <= StepsToPublish(s))
  {
    assert FinishGlobal(s.m, s.h);
    StepKeepsTaskOver(s, e.thread, e.choice);
    if Left(s.m) {
      StepPersists(s, e.thread, e.choice);
      if e.thread == WORKER {
        OwnCompletionStep(s, e.choice);
      } else {
        OtherCompletionStep(s, e.thread, e.choice);
      }
    } else {
      ExitStep(s, e);
    }
  }

  lemma StillToPublish(s: Sys)
    requires Inv(s) && Unneeded(s) && TaskOver(s.m, s.h) && s.m.ctl.completion == None
    ensures StepsToPublish(s) > 0
  {
    var (m, h, worker) := (s.m, s.h, At(s, WORKER));
    assert Locals(m, h, WORKER, worker, WORKER in s.parked);
    if Left(m) {
      LeftStillToComplete(m, h, worker);
    }
  }

  lemma LeftStillToComplete(m: Memory, h: History, worker: Thread)
    requires FinishGlobal(m, h) && FinishLocal(m, h, WORKER, worker) && JoinLocal(m, h, WORKER, worker)
    requires ReleaseLocal(m, h, WORKER, worker) && Left(m) && m.ctl.completion == None
    ensures StepsToCompletion(worker.main) > 0
  {
  }

  lemma {:induction false} RunCompletes(s: Sys, events: seq<Event>)
    requires Inv(s) && Unneeded(s) && TaskOver(s.m, s.h)
    requires OwnSteps(s, events) >= StepsToPublish(s)
    ensures Run(s, events).m.ctl.completion.Some?
    decreases |events|
  {
    if s.m.ctl.completion.Some? {
      RunPersists(s, events);
    } else if events != [] {
      var next := Step(s, events[0].thread, events[0].choice);
      InvStep(s, events[0].thread, events[0].choice);
      CompletionStep(s, events[0]);
      if next.m.ctl.completion.Some? {
        RunPersists(next, events[1..]);
      } else {
        RunCompletes(next, events[1..]);
      }
    } else {
      StillToPublish(s);
    }
  }

  /**
   The worker publishes: with nothing left to join, every interleaving in which a worker
   that nobody needs takes twenty-three steps of its own, or twenty-one once it has left
   its loop, ends with a completion, whatever hooks and destructors do.
   */
  lemma CompletionPublished(s: Sys, events: seq<Event>)
    requires Reachable(s) && Unneeded(s) && TaskOver(s.m, s.h)
    requires OwnSteps(s, events) >= if Left(s.m) then 21 else 23
    ensures Run(s, events).m.ctl.completion.Some?
  {
    ReachableInv(s);
    RunCompletes(s, events);
  }

  // ---------------------------------------------------------------- answering an operation

  /** What the worker still has to do before it acknowledges the outstanding operation. */
  function StepsToAnswer(h: History, main: Main): (n: nat)
    ensures 1 <= n <= 7
  {
    if h.ops.executing == None then (if main.WLoop? then 6 else 7)
    else match main
      case WExec(_) => 5
      case WConstructCheck(_) => 4
      case WParsed(_) => 3
      case WParsedCheck(_) => 2
      case _ => 1
  }

  /** The caller waits for `o`, and a started worker has still to answer. */
  predicate Pending(s: Sys, t: nat, o: Operation) {
    && t >= FIRST_CALLER && Awaits(At(s, t).main, o)
    && ReinitMustWait(s.m) && s.h.stage.workerStarted.Yes?
  }

  /** The caller is still at its wait, which is over or closer to its end by what the worker moved. */
  predicate CloserToAnswer(s: Sys, e: Event, next: Sys, t: nat, o: Operation) {
    && Awaits(At(next, t).main, o)
    && (ReinitMustWait(next.m) ==>
          && next.h.stage.workerStarted.Yes?
          && StepsToAnswer(next.h, At(next, WORKER).main) + (if Moves(s, e) then 1 else 0)
             <= StepsToAnswer(s.h, At(s, WORKER).main))
  }

  /** One move of the worker outside the library with an operation outstanding. */
  predicate WorkerAnswers(m: Memory, h: History, main: Main, e: Effect) {
    || e.m.cell.priorPending.No?
    || (e.h.stage.workerStarted.Yes? && StepsToAnswer(e.h, e.th.main) < StepsToAnswer(h, main))
  }

  lemma LoopAnswers(m: Memory, h: History, main: Main, parked: bool, ch: Choice)
    requires InLoop(main) && h.stage.workerStarted.Yes? && !(parked && ch != Wakes)
    requires h.ops.executing == None ==> m.cell.operation.Some?
    requires main.WAck? <==> h.ops.executing.Some?
    ensures WorkerAnswers(m, h, main, LoopEffect(m, h, main, parked, ch))
  {
  }

  lemma ConstructionAnswers(m: Memory, h: History, main: Main, ch: Choice)
    requires h.stage.workerStarted.Yes? && h.ops.executing.Some?
    ensures InParsed(main) ==> WorkerAnswers(m, h, main, ParsedEffect(m, h, main, ch))
  {
  }

  lemma ExecutionAnswers(m: Memory, h: History, main: Main, ch: Choice)
    requires h.stage.workerStarted.Yes? && h.ops.executing.Some?
    ensures InOperation(main) ==> WorkerAnswers(m, h, main, OperationEffect(m, h, main, ch))
    ensures InClosure(main) ==> WorkerAnswers(m, h, main, ClosureEffect(m, h, main, ch))
  {
  }

  lemma CallerKeepsWaiting(m: Memory, h: History, t: nat, main: Main, parked: bool, ch: Choice, o: Operation)
    requires Awaits(main, o) && ReinitMustWait(m)
    ensures Awaits(CallerEffect(m, h, t, main, parked, ch).th.main, o)
  {
    if InAwait(main) {
      AwaitRoute(m, h, t, main, parked, ch);
    }
  }

  lemma WorkerIsAnswering(m: Memory, h: History, t: nat, caller: Thread, worker: Thread, o: Operation)
    requires Globals(m, h) && t >= FIRST_CALLER && Awaits(caller.main, o)
    requires ReinitMustWait(m) && h.stage.workerStarted.Yes?
    requires RendezvousLocal(m, h, WORKER, worker) && JoinLocal(m, h, WORKER, worker)
    requires FinishLocal(m, h, WORKER, worker)
    ensures LoopFrame(worker.main)
    ensures h.ops.executing == None ==> m.cell.operation.Some? && BetweenOperations(worker.main) && worker.lib == Out
    ensures h.ops.executing.Some? ==> !BetweenOperations(worker.main)
  {
  }

  lemma FrameAnswers(m: Memory, h: History, main: Main, parked: bool, ch: Choice)
    requires LoopFrame(main) && h.stage.workerStarted.Yes? && !(parked && ch != Wakes)
    requires if h.ops.executing == None then m.cell.operation.Some? && BetweenOperations(main)
             else !BetweenOperations(main)
    ensures WorkerAnswers(m, h, main, WorkerEffect(m, h, main, parked, ch))
  {
    if InLoop(main) {
      LoopAnswers(m, h, main, parked, ch);
    } else {
      ExecutionAnswers(m, h, main, ch);
      ConstructionAnswers(m, h, main, ch);
    }
  }

  /** Only the worker executes operations, and it does not stop having been started. */
  lemma ExecutionKept(m: Memory, h: History, t: nat, th: Thread, e: Effect, parked: bool)
    requires Idles(m, h, th, e) || StepOk(m, h, t, e, parked)
    ensures h.stage.workerStarted.Yes? ==> e.h.stage.workerStarted.Yes?
    ensures t != WORKER ==> e.h.ops.executing == h.ops.executing
  {
  }

  lemma StepKeepsExecution(s: Sys, t: nat, ch: Choice)
    requires Inv(s)
    ensures s.h.stage.workerStarted.Yes? ==> Step(s, t, ch).h.stage.workerStarted.Yes?
    ensures t != WORKER ==> Step(s, t, ch).h.ops.executing == s.h.ops.executing
  {
    assert Locals(s.m, s.h, t, At(s, t), t in s.parked);
    EffectOk(s.m, s.h, t, At(s, t), t in s.parked, ch);
    var e := EffectOf(s.m, s.h, t, At(s, t), t in s.parked, ch);
    ExecutionKept(s.m, s.h, t, At(s, t), e, t in s.parked);
  }

  /** A step that leaves the worker's frame and its operation alone brings nobody further away. */
  lemma Unmoved(s: Sys, e: Event, next: Sys, t: nat, o: Operation)
    requires !Moves(s, e) && Awaits(At(next, t).main, o) && next.h.stage.workerStarted.Yes?
    requires At(next, WORKER).main == At(s, WORKER).main && next.h.ops.executing == s.h.ops.executing
    ensures CloserToAnswer(s, e, next, t, o)
  {
  }

  lemma OwnLibraryStep(s: Sys, ch: Choice, t: nat, o: Operation)
    requires Inv(s) && Pending(s, t, o) && At(s, WORKER).lib != Out
    ensures CloserToAnswer(s, Event(WORKER, ch), Step(s, WORKER, ch), t, o)
  {
    StepKeepsExecution(s, WORKER, ch);
    LibKeepsFrame(s.m, s.h, WORKER, At(s, WORKER), ch);
    Unmoved(s, Event(WORKER, ch), Step(s, WORKER, ch), t, o);
  }

  lemma AsleepIdles(m: Memory, h: History, main: Main, ch: Choice)
    requires main.WWait? && ch != Wakes
    ensures WorkerEffect(m, h, main, true, ch) == Effect(m, h, Thread(Out, main), Stay)
  {
  }

  lemma EffectAnswers(m: Memory, h: History, t: nat, caller: Thread, worker: Thread, parked: bool, ch: Choice,
                      o: Operation)
    requires Globals(m, h) && Locals(m, h, WORKER, worker, parked) && worker.lib == Out
    requires t >= FIRST_CALLER && Awaits(caller.main, o) && ReinitMustWait(m) && h.stage.workerStarted.Yes?
    ensures var e := EffectOf(m, h, WORKER, worker, parked, ch);
            if parked && ch != Wakes then e == Effect(m, h, worker, Stay) else WorkerAnswers(m, h, worker.main, e)
  {
    WorkerIsAnswering(m, h, t, caller, worker, o);
    if parked && ch != Wakes {
      AsleepIdles(m, h, worker.main, ch);
    } else {
      FrameAnswers(m, h, worker.main, parked, ch);
    }
  }

  lemma OwnAnswerStep(s: Sys, ch: Choice, t: nat, o: Operation)
    requires Inv(s) && Pending(s, t, o) && At(s, WORKER).lib == Out
    ensures CloserToAnswer(s, Event(WORKER, ch), Step(s, WORKER, ch), t, o)
  {
    assert Locals(s.m, s.h, WORKER, At(s, WORKER), WORKER in s.parked);
    EffectAnswers(s.m, s.h, t, At(s, t), At(s, WORKER), WORKER in s.parked, ch, o);
    var e := EffectOf(s.m, s.h, WORKER, At(s, WORKER), WORKER in s.parked, ch);
    AtAfter(s, WORKER, e, WORKER);
    AtAfter(s, WORKER, e, t);
    if WORKER in s.parked && ch != Wakes {
      Unmoved(s, Event(WORKER, ch), Apply(s, WORKER, e), t, o);
    } else {
      Moved(s, Event(WORKER, ch), Apply(s, WORKER, e), t, o, e);
    }
  }

  lemma Moved(s: Sys, event: Event, next: Sys, t: nat, o: Operation, e: Effect)
    requires WorkerAnswers(s.m, s.h, At(s, WORKER).main, e) && Awaits(At(next, t).main, o)
    requires next.m == e.m && next.h == e.h && At(next, WORKER) == e.th
    ensures CloserToAnswer(s, event, next, t, o)
  {
  }

  lemma CallerAnswerStep(s: Sys, ch: Choice, t: nat, o: Operation)
    requires Inv(s) && Pending(s, t, o)
    ensures Awaits(At(Step(s, t, ch), t).main, o)
  {
    if At(s, t).lib != Out {
      LibKeepsFrame(s.m, s.h, t, At(s, t), ch);
    } else {
      CallerKeepsWaiting(s.m, s.h, t, At(s, t).main, t in s.parked, ch, o);
    }
  }

  lemma OtherAnswerStep(s: Sys, u: nat, ch: Choice, t: nat, o: Operation)
    requires Inv(s) && Pending(s, t, o) && u != WORKER
    requires u == t ==> Awaits(At(Step(s, t, ch), t).main, o)
    ensures CloserToAnswer(s, Event(u, ch), Step(s, u, ch), t, o)
  {
    StepKeepsExecution(s, u, ch);
    Unmoved(s, Event(u, ch), Step(s, u, ch), t, o);
  }

  lemma AnswerStep(s: Sys, e: Event, t: nat, o: Operation)
    requires Inv(s) && Pending(s, t, o)
    ensures CloserToAnswer(s, e, Step(s, e.thread, e.choice), t, o)
  {
    if e.thread == WORKER {
      if At(s, WORKER).lib == Out {
        OwnAnswerStep(s, e.choice, t, o);
      } else {
        OwnLibraryStep(s, e.choice, t, o);
      }
    } else {
      if e.thread == t {
        CallerAnswerStep(s, e.choice, t, o);
      }
      OtherAnswerStep(s, e.thread, e.choice, t, o);
    }
  }

  /** The run passes a state in which the caller is still at its wait for `o`, and the wait is over. */
  predicate PassesAnswer(s: Sys, events: seq<Event>, t: nat, o: Operation)
    decreases |events|
  {
    || (!ReinitMustWait(s.m) && Awaits(At(s, t).main, o))
    || (events != [] && PassesAnswer(Step(s, events[0].thread, events[0].choice), events[1..], t, o))
  }

  lemma {:induction false} RunAnswers(s: Sys, events: seq<Event>, t: nat, o: Operation)
    requires Inv(s) && Pending(s, t, o)
    requires OwnSteps(s, events) >= StepsToAnswer(s.h, At(s, WORKER).main)
    ensures PassesAnswer(s, events, t, o)
    decreases |events|
  {
    if events != [] {
      var next := Step(s, events[0].thread, events[0].choice);
      InvStep(s, events[0].thread, events[0].choice);
      AnswerStep(s, events[0], t, o);
      if ReinitMustWait(next.m) {
        RunAnswers(next, events[1..], t, o);
      } else {
        assert PassesAnswer(next, events[1..], t, o);
      }
    }
  }

  /**
   The worker answers: in any run in which it takes seven steps of its own, whatever
   they are and whoever else runs in between, the caller's wait for its operation ends.
   */
  lemma OperationAnswered(s: Sys, events: seq<Event>, t: nat, o: Operation)
    requires Reachable(s) && Pending(s, t, o) && OwnSteps(s, events) >= 7
    ensures PassesAnswer(s, events, t, o)
  {
    ReachableInv(s);
    RunAnswers(s, events, t, o);
  }
}
