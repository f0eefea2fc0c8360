/**
 What the terminal lifecycle promises, over every run: any interleaving of the
 startup thread, the setup task, the physical worker and any number of callers.
 */
module TerminalTheorems {
  import opened Wrappers
  import opened TerminalMemory
  import opened TerminalProtocol
  import opened TerminalOrder
  import opened TerminalRequest
  import opened TerminalFinish
  import opened TerminalReinit
  import opened TerminalRendezvous
  import opened TerminalAnchor
  import opened TerminalJoin
  import opened TerminalHook
  import opened TerminalRelease
  import opened TerminalDisposal
  import opened TerminalWake
  import opened TerminalPanic
  import opened TerminalPayload
  import opened TerminalInvariant
  import opened TerminalRuns

  /** The invariant of one reachable state at one thread. */
  lemma Known(s: Sys, t: nat)
    requires Reachable(s)
    ensures Globals(s.m, s.h) && Locals(s.m, s.h, t, At(s, t), t in s.parked)
  {
    ReachableInv(s);
  }

  // ---------------------------------------------------------------- from one state to a later one

  /** What no step takes back. */
  ghost predicate Persists(m: Memory, h: History, m': Memory, h': History) {
    && (m.uncertain.Yes? ==> m'.uncertain.Yes?)
    && (m.ctl.completion.Some? ==> m'.ctl.completion.Some?)
    && (m.ctl.completion == Some(Uncertain) ==> m'.ctl.completion == Some(Uncertain))
    && (h.runs.everStopped.Yes? ==> h'.runs.everStopped.Yes?)
    && (Terminal(m) ==> Terminal(m'))
    && (HasFault(m) ==> m'.reason == m.reason)
    && (Left(m) ==> Left(m'))
    && m.payloads <= m'.payloads
  }

  /** One step keeps all that, commits at most one cause and notes at most one first panic. */
  ghost predicate Relates(t: nat, m: Memory, h: History, m': Memory, h': History) {
    Persists(m, h, m', h') && ReasonMoves(m, h, m', h') && Fresh(t, h.panics, h'.panics)
  }

  lemma StepPersists(s: Sys, t: nat, ch: Choice)
    requires Inv(s)
    ensures Relates(t, s.m, s.h, Step(s, t, ch).m, Step(s, t, ch).h)
  {
    assert Locals(s.m, s.h, t, At(s, t), t in s.parked);
    EffectOk(s.m, s.h, t, At(s, t), t in s.parked, ch);
    var e := EffectOf(s.m, s.h, t, At(s, t), t in s.parked, ch);
    EffectRelates(s.m, s.h, t, At(s, t), e, t in s.parked);
  }

  lemma EffectRelates(m: Memory, h: History, t: nat, th: Thread, e: Effect, parked: bool)
    requires Idles(m, h, th, e) || StepOk(m, h, t, e, parked)
    ensures Relates(t, m, h, e.m, e.h)
  {
  }

  lemma {:induction false} RunPersists(s: Sys, events: seq<Event>)
    requires Inv(s)
    ensures Persists(s.m, s.h, Run(s, events).m, Run(s, events).h)
    decreases |events|
  {
    if events != [] {
      var next := Step(s, events[0].thread, events[0].choice);
      StepPersists(s, events[0].thread, events[0].choice);
      InvStep(s, events[0].thread, events[0].choice);
      RunPersists(next, events[1..]);
    }
  }

  lemma FollowsPersists(s: Sys, later: Sys)
    requires Reachable(s) && Follows(s, later)
    ensures Persists(s.m, s.h, later.m, later.h) && Inv(later)
  {
    ReachableInv(s);
    var events: seq<Event> :| later == Run(s, events);
    RunPersists(s, events);
    InvRun(s, events);
  }

  // ---------------------------------------------------------------- uncertainty and completion

  /** A published success excludes doubt, published doubt is recorded, and doubt is anchored. */
  lemma CompletionSound(s: Sys)
    requires Reachable(s)
    ensures s.m.ctl.completion == Some(PhysicallyStopped) ==> s.m.uncertain.No? && s.m.anchored.No?
    ensures s.m.ctl.completion == Some(Uncertain) ==> s.m.uncertain.Yes?
    ensures s.m.uncertain.Yes? ==> s.m.anchored.Yes?
    ensures s.m.anchored.No? ==> s.m.ctl.completion == Some(PhysicallyStopped) || s.h.stage.emptied.Yes?
  {
    Known(s, WORKER);
  }

  lemma Outcomes(c: Option<Completion>)
    ensures c == None || c == Some(PhysicallyStopped) || c == Some(Uncertain)
  {
    match c
    case None =>
    case Some(outcome) => match outcome { case PhysicallyStopped => case Uncertain => }
  }

  /** Uncertainty stays, keeps its anchor, and can only downgrade what was published. */
  lemma UncertaintySticky(s: Sys, later: Sys)
    requires Reachable(s) && Follows(s, later)
    ensures s.m.uncertain.Yes? ==> later.m.uncertain.Yes? && later.m.anchored.Yes?
    ensures s.m.uncertain.Yes? ==> later.m.ctl.completion != Some(PhysicallyStopped)
    ensures s.m.ctl.completion == Some(Uncertain) ==> later.m.ctl.completion == Some(Uncertain)
    ensures s.m.ctl.completion == Some(PhysicallyStopped) ==>
              later.m.ctl.completion == (if later.m.uncertain.Yes? then Some(Uncertain) else Some(PhysicallyStopped))
  {
    Known(s, WORKER);
    FollowsPersists(s, later);
    assert AnchorGlobal(s.m, s.h) && AnchorGlobal(later.m, later.h);
    Outcomes(later.m.ctl.completion);
  }

  // ---------------------------------------------------------------- evidence of a physical stop

  /** The finish hook ran exactly once and reported a stop, if the factory ever registered one. */
  predicate HookStopped(s: Sys) {
    if Registered(s.m) then s.h.runs.finishRuns == 1 && s.h.runs.finishStopped.Yes? else s.h.runs.finishRuns == 0
  }

  /** Physical stop is published only on complete evidence. */
  lemma StopHasEvidence(s: Sys)
    requires Reachable(s) && s.m.ctl.completion == Some(PhysicallyStopped)
    ensures s.m.res.held == {} && s.m.res.owners == 0
    ensures s.h.stage.taskSpawned.Yes? ==> s.m.res.initialResult.Some?
    ensures HookStopped(s) && !Panicked(s.h, OfFinish)
    ensures s.m.cell.retirementFailed.No? && !Panicked(s.h, OfCleanup)
    ensures Terminal(s.m) && s.m.ctl.published.Yes?
  {
    Known(s, WORKER);
  }

  /** Once a stop was ever published, no SDK owner and no attached resource can appear again. */
  lemma StopIsFinal(s: Sys, later: Sys)
    requires Reachable(s) && Follows(s, later) && s.m.ctl.completion == Some(PhysicallyStopped)
    ensures later.m.res.owners == 0 && later.m.res.held == {}
  {
    Known(s, WORKER);
    FollowsPersists(s, later);
  }

  /** Execution is always settled: the branch that puts the finish hook back is dead. */
  lemma ExecutionAlwaysSettles(s: Sys)
    requires Reachable(s)
    ensures At(s, WORKER).main.WRetired? ==> At(s, WORKER).main.settled.Yes?
    ensures At(s, WORKER).main.WTakeFinish? ==> At(s, WORKER).main.settled.Yes?
    ensures !At(s, WORKER).main.WRestore?
  {
    Known(s, WORKER);
    JoinedSettles(s.m, s.h, At(s, WORKER));
  }

  lemma JoinedSettles(m: Memory, h: History, worker: Thread)
    requires JoinLocal(m, h, WORKER, worker)
    ensures worker.main.WRetired? || worker.main.WTakeFinish? ==> worker.main.settled.Yes?
    ensures !worker.main.WRestore?
  {
  }

  /** However the worker ends, a registered finish hook was called exactly once. */
  lemma FinishHookOnce(s: Sys)
    requires Reachable(s)
    ensures s.h.runs.finishRuns <= 1
    ensures s.m.ctl.finishState == Complete && Registered(s.m) ==> s.h.runs.finishRuns == 1
  {
    Known(s, WORKER);
  }

  // ---------------------------------------------------------------- cleanup prefix

  /**
   If destructor `k` of the disposal panics, exactly the captures up to and
   including it have left since the join: the request hook is gone if and only if
   its turn had come, and no owner of the release was touched.
   */
  lemma DisposalPrefix(s: Sys, r: Resource, k: nat)
    requires Reachable(s) && s.h.release.disposedAt == Some(k)
    ensures k < CAPTURES
    ensures r in s.m.res.held <==> r in s.h.release.joined && CaptureRank(r) > k
    ensures s.m.ctl.request.Yes? <==> Registered(s.m) && k < REQUEST_CAPTURE
    ensures CleanupFailed(s)
  {
    Known(s, WORKER);
    Outcomes(s.m.ctl.completion);
    assert DisposalLocal(s.m, s.h, WORKER, At(s, WORKER)) && HookGlobal(s.m, s.h);
  }

  /**
   If the destructor of the retired future had panicked, the disposal never
   starts: everything held at the join is held for ever, the request hook included.
   */
  lemma RetirementRetains(s: Sys, r: Resource)
    requires Reachable(s) && s.m.cell.retirementFailed.Yes? && AfterJoin(At(s, WORKER).main)
    ensures r in s.m.res.held <==> r in s.h.release.joined
    ensures s.m.ctl.request.Yes? <==> Registered(s.m)
    ensures s.h.release.disposedAt == None && s.h.release.stoppedAt == None
    ensures CleanupFailed(s)
  {
    Known(s, WORKER);
    Outcomes(s.m.ctl.completion);
    CapturesAfterTake(s.h.release.joined);
    assert DisposalLocal(s.m, s.h, WORKER, At(s, WORKER)) && HookGlobal(s.m, s.h);
  }

  /**
   If the k-th destructor of the release panics, exactly the captures of the
   disposal and the owners up to and including it have left since the join.
   */
  lemma CleanupPrefix(s: Sys, r: Resource, k: nat)
    requires Reachable(s) && s.h.release.stoppedAt == Some(k)
    ensures r in s.m.res.held <==> r in s.h.release.joined && CaptureRank(r) >= CAPTURES && Rank(r) > k
    ensures Registered(s.m) ==> s.h.runs.finishRuns == 1
    ensures CleanupFailed(s)
  {
    Known(s, WORKER);
    ReleaseStopped(s.m, s.h, At(s, WORKER), r, k);
    StoppedFails(s);
  }

  lemma ReleaseStopped(m: Memory, h: History, worker: Thread, r: Resource, k: nat)
    requires ReleaseGlobal(m, h) && DisposalLocal(m, h, WORKER, worker) && h.release.stoppedAt == Some(k)
    ensures r in m.res.held <==> r in h.release.joined && CaptureRank(r) >= CAPTURES && Rank(r) > k
  {
  }

  lemma StoppedFails(s: Sys)
    requires Globals(s.m, s.h) && Locals(s.m, s.h, WORKER, At(s, WORKER), WORKER in s.parked)
    requires s.h.release.stoppedAt.Some?
    ensures Registered(s.m) ==> s.h.runs.finishRuns == 1
    ensures CleanupFailed(s)
  {
    Outcomes(s.m.ctl.completion);
    assert AnchorGlobal(s.m, s.h) && ReleaseGlobal(s.m, s.h);
    assert ReleaseLocal(s.m, s.h, WORKER, At(s, WORKER)) && HookLocal(s.m, s.h, WORKER, At(s, WORKER));
  }

  /** A failed cleanup is published as anchored doubt, and still called a registered finish hook exactly once. */
  predicate CleanupFailed(s: Sys) {
    && (s.m.ctl.completion.Some? ==>
          s.m.ctl.completion == Some(Uncertain) && s.m.uncertain.Yes? && s.m.anchored.Yes?)
    && (s.m.ctl.finishState == Complete ==>
          s.m.ctl.completion.Some? && s.h.runs.finishRuns == if Registered(s.m) then 1 else 0)
  }

  // ---------------------------------------------------------------- the worker and reinitialization

  /** The worker leaves its loop only when nobody can need it any more. */
  lemma WorkerLeavesLast(s: Sys)
    requires Reachable(s) && Left(s.m)
    ensures Terminal(s.m) && s.m.ctl.published.Yes?
    ensures s.m.cell.activeReinit.No? && s.m.cell.operation == None
    ensures s.m.ctl.requestState != RequestIdle && s.m.ctl.requestState != RequestRunning
  {
    Known(s, WORKER);
  }

  /** After that no reinitialization is ever admitted again. */
  lemma NoReinitAfterLeaving(s: Sys, later: Sys, t: nat)
    requires Reachable(s) && Left(s.m) && Follows(s, later) && t >= FIRST_CALLER
    ensures !ReinitAdmitted(later.m) && later.m.cell.activeReinit.No? && !Active(At(later, t).main)
  {
    FollowsPersists(s, later);
    assert Locals(later.m, later.h, t, At(later, t), t in later.parked);
  }

  /** Two callers are never between begin_reinit and end_reinit at once. */
  lemma OneReinitAtATime(s: Sys, t: nat, u: nat)
    requires Reachable(s) && t >= FIRST_CALLER && u >= FIRST_CALLER
    requires Active(At(s, t).main) && Active(At(s, u).main)
    ensures t == u
  {
    Known(s, t);
    Known(s, u);
  }

  /** Once a terminal cause is committed at most one more operation is taken. */
  lemma AtMostOneLateOperation(s: Sys)
    requires Reachable(s)
    ensures s.h.ops.lateOperations <= 1
    ensures s.h.ops.lateOperations == 1 ==> s.m.cell.operation == None
  {
    Known(s, WORKER);
  }

  /**
   construct_reinit returns the code of its own closure, or TB_CLOSED when the
   worker could not be spawned.
   */
  lemma ConstructionReturnsOwnCode(s: Sys, t: nat, id: nat)
    requires Reachable(s) && t >= FIRST_CALLER && At(s, t) == Thread(Out, RConstructWait(id))
    requires !ReinitMustWait(s.m)
    ensures s.m.ctl.finishState == SpawnFailed ==> AfterConstruct(s.m) == REnd(TB_CLOSED)
    ensures s.m.ctl.finishState != SpawnFailed ==>
              s.h.ops.answerOf == Some(id)
              && AfterConstruct(s.m) == (if s.h.ops.answer == TB_OK then RPoll else REnd(s.h.ops.answer))
  {
    Known(s, t);
    assert RendezvousLocal(s.m, s.h, t, At(s, t));
  }

  /** The operation the caller at `main` submitted. */
  predicate Awaits(main: Main, o: Operation) {
    match o
    case Retire => main.RRetireNotify? || main.RRetireWait?
    case Construct(id) => main == RConstructNotify(id) || main == RConstructWait(id)
  }

  /** Who will move the operation `o` of caller `th` forward. */
  predicate OnTheWay(m: Memory, h: History, th: Thread, worker: Thread, spawner: Thread, o: Operation) {
    || (m.ctl.finishState == FinishIdle && th.lib.Schedule?)
    || (m.ctl.finishState == Submitted && h.stage.workerStarted.No? && (spawner.lib.Spawn? || spawner.lib.Reject?))
    || (m.ctl.finishState == Submitted && h.stage.workerStarted.Yes?
        && (h.ops.executing == Some(o) ==> worker.main.WExec? || InConstruction(worker.main) || worker.main.WAck?)
        && (h.ops.executing != Some(o) ==>
              m.cell.operation == Some(o) && worker.lib == Out && BetweenOperations(worker.main)))
  }

  /**
   The rendezvous never deadlocks: what a caller waits for is exactly its own
   operation, and somebody is on the way to it: the caller itself has still to
   schedule, the spawner is about to start or reject the worker, or the worker is
   executing the operation, or it is in its loop and comes to the queued one next.
   */
  lemma RendezvousProgress(s: Sys, t: nat, o: Operation)
    requires Reachable(s) && t >= FIRST_CALLER && Awaits(At(s, t).main, o)
    requires ReinitMustWait(s.m)
    ensures s.m.cell.operation == Some(o) || s.h.ops.executing == Some(o)
    ensures s.m.cell.operation == None || s.h.ops.executing == None
    ensures OnTheWay(s.m, s.h, At(s, t), At(s, WORKER), At(s, s.h.duty.spawner), o)
  {
    Known(s, t);
    Known(s, WORKER);
    Known(s, s.h.duty.spawner);
    ProgressFrom(s.m, s.h, t, At(s, t), At(s, WORKER), At(s, s.h.duty.spawner), o);
  }

  lemma ProgressFrom(m: Memory, h: History, t: nat, th: Thread, worker: Thread, spawner: Thread, o: Operation)
    requires FinishGlobal(m, h) && RendezvousGlobal(m, h)
    requires t >= FIRST_CALLER && Awaits(th.main, o) && ReinitMustWait(m)
    requires ReinitLocal(m, h, t, th) && RendezvousLocal(m, h, t, th)
    requires RendezvousLocal(m, h, WORKER, worker) && FinishLocal(m, h, h.duty.spawner, spawner)
    requires JoinLocal(m, h, WORKER, worker) && FinishLocal(m, h, WORKER, worker)
    ensures m.cell.operation == Some(o) || h.ops.executing == Some(o)
    ensures m.cell.operation == None || h.ops.executing == None
    ensures OnTheWay(m, h, th, worker, spawner, o)
  {
  }

  // ---------------------------------------------------------------- no lost wake-up

  /** A parked thread whose guard is true will be woken: its waker has still to notify. */
  lemma NoLostWakeup(s: Sys, u: nat)
    requires Reachable(s) && u in s.parked && Enabled(s.m, At(s, u).main)
    ensures s.h.duty.wakeDue.Yes? && OwesNotify(At(s, s.h.duty.waker)) && s.h.duty.waker != u
  {
    Known(s, u);
    Known(s, s.h.duty.waker);
    assert WakeLocal(s.m, s.h, u, At(s, u), u in s.parked);
    assert WakeLocal(s.m, s.h, s.h.duty.waker, At(s, s.h.duty.waker), s.h.duty.waker in s.parked);
  }

  // ---------------------------------------------------------------- the request hook

  /** The hook is entered at most once, and only on a terminal instance. */
  lemma RequestAtMostOnce(s: Sys)
    requires Reachable(s)
    ensures s.h.runs.requestRuns <= 1
    ensures s.h.runs.requestRuns == 1 ==> Terminal(s.m)
  {
    Known(s, STARTUP);
  }

  /** Nobody is inside register, signal, source_panic or publish before its run_request. */
  ghost predicate RequestSettled(s: Sys) {
    forall u: nat :: !OwesRequest(u, At(s, u)) && !InHook(At(s, u).lib)
  }

  /**
   No lost request: with a terminal cause committed, hooks registered and every
   such call returned, the hook has been invoked exactly once and has ended.
   */
  lemma NoLostRequest(s: Sys)
    requires Reachable(s) && Terminal(s.m) && Registered(s.m) && RequestSettled(s)
    ensures s.h.runs.requestRuns == 1
    ensures s.m.ctl.requestState == RequestDone || s.m.ctl.requestState == RequestPanicked
  {
    Known(s, s.h.duty.debtor);
    assert RequestLocal(s.m, s.h, s.h.duty.debtor, At(s, s.h.duty.debtor));
    assert !OwesRequest(s.h.duty.debtor, At(s, s.h.duty.debtor));
    Known(s, s.h.duty.requester);
    assert RequestLocal(s.m, s.h, s.h.duty.requester, At(s, s.h.duty.requester));
    assert !InHook(At(s, s.h.duty.requester).lib);
  }

  /** The finish hook starts only after the request hook returned or panicked. */
  lemma FinishAfterRequest(s: Sys)
    requires Reachable(s) && Registered(s.m) && (s.h.runs.finishRuns > 0 || At(s, WORKER).main.WFinish?)
    ensures s.h.runs.requestRuns == 1
    ensures s.m.ctl.requestState == RequestDone || s.m.ctl.requestState == RequestPanicked
  {
    Known(s, WORKER);
    assert FinishLocal(s.m, s.h, WORKER, At(s, WORKER)) && HookGlobal(s.m, s.h);
  }

  // ---------------------------------------------------------------- panics

  /** keep_payload always finds its cell empty, so no payload is ever replaced. */
  lemma PayloadCellEmpty(s: Sys, t: nat)
    requires Reachable(s)
    ensures At(s, t).lib.Keep? ==> At(s, t).lib.kind !in s.m.payloads
    ensures At(s, t).lib.HookKeep? ==> OfRequest !in s.m.payloads
  {
    Known(s, t);
    assert PayloadLocal(s.m, s.h, t, At(s, t));
  }

  lemma FreshCounts(t: nat, p: PanicLog, p': PanicLog)
    requires Fresh(t, p, p') && p.total == |p.panicked|
    ensures p'.total == |p'.panicked|
  {
  }

  lemma {:induction false} RunCountsPanics(s: Sys, events: seq<Event>)
    requires Inv(s) && s.h.panics.total == |s.h.panics.panicked|
    ensures Run(s, events).h.panics.total == |Run(s, events).h.panics.panicked|
    decreases |events|
  {
    if events != [] {
      StepPersists(s, events[0].thread, events[0].choice);
      InvStep(s, events[0].thread, events[0].choice);
      FreshCounts(events[0].thread, s.h.panics, Step(s, events[0].thread, events[0].choice).h.panics);
      RunCountsPanics(Step(s, events[0].thread, events[0].choice), events[1..]);
    }
  }

  /** Every kind of foreign code is caught panicking at most once in a run. */
  lemma EachKindPanicsOnce(s: Sys)
    requires Reachable(s)
    ensures s.h.panics.total == |s.h.panics.panicked|
  {
    InvInit();
    var events: seq<Event> :| s == Run(Init(), events);
    RunCountsPanics(Init(), events);
  }

  // ---------------------------------------------------------------- shutdown

  /** TB_OK needs a stop that was really published; TB_PANICKED leaves recorded, anchored doubt. */
  lemma ShutdownVerdict(s: Sys, t: nat, status: int)
    requires Reachable(s) && At(s, t).main == HReturn(status)
    ensures status == TB_OK || status == TB_PANICKED
    ensures status == TB_OK ==> s.h.runs.everStopped.Yes? && s.m.res.owners == 0 && s.m.res.held == {}
    ensures status == TB_PANICKED ==> s.m.uncertain.Yes? && s.m.anchored.Yes?
  {
    Known(s, t);
    assert AnchorLocal(s.m, s.h, t, At(s, t));
  }

  // ---------------------------------------------------------------- the reason

  lemma {:induction false} RunReason(s: Sys, events: seq<Event>)
    requires Inv(s) && s.m.reason == Winner(s.h.log)
    ensures Run(s, events).m.reason == Winner(Run(s, events).h.log)
    decreases |events|
  {
    if events != [] {
      var next := Step(s, events[0].thread, events[0].choice);
      StepPersists(s, events[0].thread, events[0].choice);
      InvStep(s, events[0].thread, events[0].choice);
      WinnerOfMore(s.m, s.h, next.m, next.h);
      RunReason(next, events[1..]);
    }
  }

  lemma WinnerOfMore(m: Memory, h: History, m': Memory, h': History)
    requires m.reason == Winner(h.log) && ReasonMoves(m, h, m', h')
    ensures m'.reason == Winner(h'.log)
  {
    if |h'.log| == |h.log| + 1 {
      assert h'.log[..|h'.log| - 1] == h.log;
    }
  }

  /** The reason is what the committed causes amount to, whatever their compare-and-swaps did. */
  lemma ReasonIsWinner(s: Sys)
    requires Reachable(s)
    ensures s.m.reason == Winner(s.h.log)
  {
    InvInit();
    var events: seq<Event> :| s == Run(Init(), events);
    RunReason(Init(), events);
  }

  /** The first fault-class cause of a history. */
  function FirstFault(log: seq<Cause>): Option<Cause> {
    if log == [] then None else if FaultClass(log[0]) then Some(log[0]) else FirstFault(log[1..])
  }

  /** ... that is: the first fault-class cause if there is one, otherwise the first cause. */
  lemma {:induction false} WinnerIsFirst(log: seq<Cause>)
    ensures Winner(log) ==
              (if FirstFault(log).Some? then Code(FirstFault(log).value) else if log != [] then Code(log[0]) else 0)
    decreases |log|
  {
    if log != [] {
      var init := log[..|log| - 1];
      WinnerIsFirst(init);
      FirstFaultAppend(init, log[|log| - 1]);
      assert log == init + [log[|log| - 1]];
    }
  }

  lemma {:induction false} FirstFaultAppend(log: seq<Cause>, c: Cause)
    ensures FirstFault(log + [c]) ==
              (if FirstFault(log).Some? then FirstFault(log) else if FaultClass(c) then Some(c) else None)
    ensures FirstFault(log).Some? ==> FaultClass(FirstFault(log).value)
    decreases |log|
  {
    if log != [] {
      FirstFaultAppend(log[1..], c);
      assert (log + [c])[1..] == log[1..] + [c];
    }
  }

  /** How often the reason changes along a run. */
  function Changes(s: Sys, events: seq<Event>): nat
    decreases |events|
  {
    if events == [] then 0
    else
      var next := Step(s, events[0].thread, events[0].choice);
      (if next.m.reason == s.m.reason then 0 else 1) + Changes(next, events[1..])
  }

  /** Live, closed, faulted. */
  function Severity(reason: nat): nat {
    if reason == 0 then 0 else if reason < 3 then 1 else 2
  }

  lemma SeverityRises(m: Memory, h: History, m': Memory, h': History)
    requires ReasonMoves(m, h, m', h')
    ensures Severity(m'.reason) >= Severity(m.reason) + if m'.reason == m.reason then 0 else 1
  {
  }

  lemma {:induction false} ReasonChangesAtMostTwice(s: Sys, events: seq<Event>)
    requires Inv(s)
    ensures Changes(s, events) <= 2 - Severity(s.m.reason)
    decreases |events|
  {
    if events != [] {
      var next := Step(s, events[0].thread, events[0].choice);
      StepPersists(s, events[0].thread, events[0].choice);
      SeverityRises(s.m, s.h, next.m, next.h);
      InvStep(s, events[0].thread, events[0].choice);
      ReasonChangesAtMostTwice(next, events[1..]);
    }
  }

  /** Liveness never reopens and a fault is never forgotten. */
  lemma ReasonNeverReopens(s: Sys, later: Sys)
    requires Reachable(s) && Follows(s, later)
    ensures Terminal(s.m) ==> Terminal(later.m)
    ensures HasFault(s.m) ==> later.m.reason == s.m.reason
    ensures Severity(s.m.reason) <= Severity(later.m.reason)
  {
    FollowsPersists(s, later);
  }

  /** A fault-class reason is visible only after the host was told, once foreign code was entered. */
  lemma HostFaultFirst(s: Sys)
    requires Reachable(s) && HasFault(s.m) && s.h.stage.exposed.Yes?
    ensures s.h.hostFaulted.Yes?
  {
    Known(s, STARTUP);
  }
}
