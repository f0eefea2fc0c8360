/**
 From regions to runs: the invariant of TerminalInvariant.dfy holds at the start,
 survives every step of every thread, and hence holds in every reachable state.
 */
module TerminalRuns {
  import opened TerminalMemory
  import opened TerminalProtocol
  import opened TerminalOrder
  import opened TerminalRequest
  import opened TerminalFinish
  import opened TerminalReinit
  import opened TerminalRendezvous
  import opened TerminalAnchor
  import opened TerminalJoin
  import opened TerminalHook
  import opened TerminalRelease
  import opened TerminalDisposal
  import opened TerminalWake
  import opened TerminalPanic
  import opened TerminalPayload
  import opened TerminalInvariant

  ghost predicate Inv(s: Sys) {
    && Globals(s.m, s.h)
    && (forall u: nat :: Locals(s.m, s.h, u, At(s, u), u in s.parked))
  }

  // ---------------------------------------------------------------- one step of one thread

  predicate Idles(m: Memory, h: History, th: Thread, e: Effect) {
    e == Effect(m, h, th, Stay)
  }

  lemma LibOk(m: Memory, h: History, t: nat, th: Thread, parked: bool, ch: Choice)
    requires Globals(m, h) && Locals(m, h, t, th, parked) && th.lib != Out
    ensures StepOk(m, h, t, LibEffect(m, h, t, th, ch), parked)
  {
    if InCommit(th.lib) { StepCommit(m, h, t, th, parked, ch); }
    else if InRequest(th.lib) { StepRequest(m, h, t, th, parked, ch); }
    else if InHookPanic(th.lib) { StepHookPanic(m, h, t, th, parked); }
    else if InMark(th.lib) { StepMark(m, h, t, th, parked); }
    else { StepSchedule(m, h, t, th, parked, ch); }
  }

  /** The library chain does not touch the frame it returns to, nor the rendezvous. */
  lemma LibKeepsFrame(m: Memory, h: History, t: nat, th: Thread, ch: Choice)
    requires th.lib != Out
    ensures var e := LibEffect(m, h, t, th, ch);
            e.th.main == th.main && e.m.cell == m.cell && e.h.ops == h.ops
  {
  }

  lemma OffStartupIdles(m: Memory, h: History, th: Thread, ch: Choice)
    requires th.lib == Out && !InParse(th.main) && !InFactory(th.main) && !InAttach(th.main) && !InPublish(th.main)
    ensures Idles(m, h, th, StartupEffect(m, h, th.main, ch))
  {
  }

  lemma StartupOk(m: Memory, h: History, th: Thread, parked: bool, ch: Choice)
    requires Globals(m, h) && Locals(m, h, STARTUP, th, parked) && th.lib == Out
    ensures var e := StartupEffect(m, h, th.main, ch); Idles(m, h, th, e) || StepOk(m, h, STARTUP, e, parked)
  {
    if InParse(th.main) { StepParse(m, h, th, parked, ch); }
    else if InFactory(th.main) { StepFactory(m, h, th, parked, ch); }
    else if InAttach(th.main) { StepAttach(m, h, th, parked, ch); }
    else if InPublish(th.main) { StepPublish(m, h, th, parked); }
    else { OffStartupIdles(m, h, th, ch); }
  }

  lemma LoopOk(m: Memory, h: History, th: Thread, parked: bool, ch: Choice)
    requires Globals(m, h) && Locals(m, h, WORKER, th, parked) && th.lib == Out
    requires LoopFrame(th.main) && h.stage.workerStarted.Yes?
    ensures StepOk(m, h, WORKER, WorkerEffect(m, h, th.main, parked, ch), parked)
  {
    if InLoop(th.main) { StepLoop(m, h, th, parked, ch); }
    else if InOperation(th.main) { StepOperation(m, h, th, parked, ch); }
    else if InClosure(th.main) { StepClosure(m, h, th, parked, ch); }
    else { StepParsed(m, h, th, parked, ch); }
  }

  lemma OffWorkerIdles(m: Memory, h: History, th: Thread, parked: bool, ch: Choice)
    requires th.lib == Out && !LoopFrame(th.main) && !FinishFrame(th.main)
    ensures Idles(m, h, th, WorkerEffect(m, h, th.main, parked, ch))
  {
  }

  lemma WorkerOk(m: Memory, h: History, th: Thread, parked: bool, ch: Choice)
    requires Globals(m, h) && Locals(m, h, WORKER, th, parked) && th.lib == Out
    ensures var e := WorkerEffect(m, h, th.main, parked, ch); Idles(m, h, th, e) || StepOk(m, h, WORKER, e, parked)
  {
    if h.stage.workerStarted.No? { assert th.main == WStart; }
    else if LoopFrame(th.main) { LoopOk(m, h, th, parked, ch); }
    else if InSettle(th.main) { StepSettle(m, h, th, parked, ch); }
    else if InRelease(th.main) { StepRelease(m, h, th, parked, ch); }
    else if InFinish(th.main) { StepFinish(m, h, th, parked, ch); }
    else { OffWorkerIdles(m, h, th, parked, ch); }
  }

  lemma TaskOk(m: Memory, h: History, th: Thread, parked: bool, ch: Choice)
    requires Globals(m, h) && Locals(m, h, TASK, th, parked) && th.lib == Out
    ensures var e := TaskEffect(m, h, th.main, ch); Idles(m, h, th, e) || StepOk(m, h, TASK, e, parked)
  {
    if h.stage.taskSpawned.Yes? { StepTask(m, h, th, parked, ch); }
  }

  lemma AwaitRoute(m: Memory, h: History, t: nat, main: Main, parked: bool, ch: Choice)
    requires InAwait(main)
    ensures CallerEffect(m, h, t, main, parked, ch) == AwaitEffect(m, h, main, parked, ch)
  {
  }

  lemma SecondRoute(m: Memory, h: History, t: nat, main: Main, parked: bool, ch: Choice)
    requires InSecond(main)
    ensures CallerEffect(m, h, t, main, parked, ch) == SecondEffect(m, h, main, ch)
  {
  }

  lemma ConcludeRoute(m: Memory, h: History, t: nat, main: Main, parked: bool, ch: Choice)
    requires InConclude(main)
    ensures CallerEffect(m, h, t, main, parked, ch) == ConcludeEffect(m, h, t, main, ch)
  {
  }

  lemma EarlyReinitOk(m: Memory, h: History, t: nat, th: Thread, parked: bool, ch: Choice)
    requires Globals(m, h) && Locals(m, h, t, th, parked) && th.lib == Out && t >= FIRST_CALLER
    requires (InAdmit(th.main) || InCallback(th.main) || InSubmission(th.main)) && h.stage.exposed.Yes?
    ensures StepOk(m, h, t, CallerEffect(m, h, t, th.main, parked, ch), parked)
  {
    if InAdmit(th.main) { StepAdmit(m, h, t, th, parked, ch); }
    else if InCallback(th.main) { StepCallback(m, h, t, th, parked, ch); }
    else { StepSubmission(m, h, t, th, parked); }
  }

  lemma ReinitOk(m: Memory, h: History, t: nat, th: Thread, parked: bool, ch: Choice)
    requires Globals(m, h) && Locals(m, h, t, th, parked) && th.lib == Out && t >= FIRST_CALLER
    requires ReinitFrame(th.main) && h.stage.exposed.Yes?
    ensures StepOk(m, h, t, CallerEffect(m, h, t, th.main, parked, ch), parked)
  {
    if InAdmit(th.main) || InCallback(th.main) || InSubmission(th.main) { EarlyReinitOk(m, h, t, th, parked, ch); }
    else if InAwait(th.main) { AwaitRoute(m, h, t, th.main, parked, ch); StepAwait(m, h, t, th, parked, ch); }
    else if InSecond(th.main) { SecondRoute(m, h, t, th.main, parked, ch); StepSecond(m, h, t, th, parked, ch); }
    else { ConcludeRoute(m, h, t, th.main, parked, ch); StepConclude(m, h, t, th, parked, ch); }
  }

  predicate OffCaller(main: Main) {
    && !main.Rest? && !ReinitFrame(main) && !InOwner(main) && !InShutdown(main) && !InVerdict(main)
  }

  lemma OffCallerIdles(m: Memory, h: History, t: nat, th: Thread, parked: bool, ch: Choice)
    requires th.lib == Out && OffCaller(th.main)
    ensures Idles(m, h, th, CallerEffect(m, h, t, th.main, parked, ch))
  {
  }

  lemma CallerOk(m: Memory, h: History, t: nat, th: Thread, parked: bool, ch: Choice)
    requires Globals(m, h) && Locals(m, h, t, th, parked) && th.lib == Out && t >= FIRST_CALLER
    ensures var e := CallerEffect(m, h, t, th.main, parked, ch); Idles(m, h, th, e) || StepOk(m, h, t, e, parked)
  {
    if h.stage.exposed.No? { assert th.main == Rest; }
    else if th.main.Rest? { StepStart(m, h, t, th, parked, ch); }
    else if ReinitFrame(th.main) { ReinitOk(m, h, t, th, parked, ch); }
    else if InOwner(th.main) { StepOwner(m, h, t, th, parked); }
    else if InShutdown(th.main) { StepShutdown(m, h, t, th, parked, ch); }
    else if InVerdict(th.main) { StepVerdict(m, h, t, th, parked, ch); }
    else { OffCallerIdles(m, h, t, th, parked, ch); }
  }

  lemma EffectOk(m: Memory, h: History, t: nat, th: Thread, parked: bool, ch: Choice)
    requires Globals(m, h) && Locals(m, h, t, th, parked)
    ensures var e := EffectOf(m, h, t, th, parked, ch); Idles(m, h, th, e) || StepOk(m, h, t, e, parked)
  {
    if th.lib != Out { LibOk(m, h, t, th, parked, ch); }
    else if t == WORKER { WorkerOk(m, h, th, parked, ch); }
    else if t == STARTUP { StartupOk(m, h, th, parked, ch); }
    else if t == TASK { TaskOk(m, h, th, parked, ch); }
    else { CallerOk(m, h, t, th, parked, ch); }
  }

  /** What one thread does leaves every other thread where it can be. */
  lemma OthersStable(m: Memory, h: History, t: nat, e: Effect, u: nat, th: Thread, parked: bool, mine: bool)
    requires u != t && Globals(m, h) && Locals(m, h, u, th, parked) && StepOk(m, h, t, e, mine)
    requires t == WORKER ==> m.ctl.finishState != SpawnFailed
    ensures Locals(e.m, e.h, u, th, parked && e.parking != WakeAll)
  {
    OrderStable(m, h, e.m, e.h, t, u, th);
    RequestStable(m, h, e.m, e.h, t, u, th);
    FinishStable(m, h, e.m, e.h, t, u, th);
    ReinitStable(m, h, e.m, e.h, t, u, th);
    RendezvousStable(m, h, e.m, e.h, t, u, th);
    AnchorStable(m, h, e.m, e.h, t, u, th);
    JoinStable(m, h, e.m, e.h, t, u, th);
    HookStable(m, h, e.m, e.h, t, u, th);
    ReleaseStable(m, h, e.m, e.h, t, u, th);
    DisposalStable(m, h, e.m, e.h, t, u, th);
    PanicStable(m, h, e.m, e.h, t, u, th);
    PayloadStable(m, h, e.m, e.h, t, u, th);
    WakeStable(m, h, e, t, u, th, parked);
  }

  lemma StepGlobals(m: Memory, h: History, t: nat, e: Effect, parked: bool)
    requires StepOk(m, h, t, e, parked)
    ensures Globals(e.m, e.h) && Locals(e.m, e.h, t, e.th, ParkedAfter(parked, e.parking))
  {
  }

  /** An unstarted worker cannot move. */
  lemma UnstartedIdles(m: Memory, h: History, th: Thread, parked: bool, ch: Choice)
    requires FinishGlobal(m, h) && OrderLocal(m, h, WORKER, th) && m.ctl.finishState == SpawnFailed
    ensures Idles(m, h, th, EffectOf(m, h, WORKER, th, parked, ch))
  {
    assert th == Thread(Out, WStart);
  }

  lemma AtAfter(s: Sys, t: nat, e: Effect, u: nat)
    ensures At(Apply(s, t, e), u) == if u == t then e.th else At(s, u)
    ensures u in Apply(s, t, e).parked <==>
              if u == t then ParkedAfter(t in s.parked, e.parking) else u in s.parked && e.parking != WakeAll
  {
  }

  lemma InvStep(s: Sys, t: nat, ch: Choice)
    requires Inv(s)
    ensures Inv(Step(s, t, ch))
  {
    var (m, h, th, parked) := (s.m, s.h, At(s, t), t in s.parked);
    assert Locals(m, h, t, th, parked);
    var e := EffectOf(m, h, t, th, parked, ch);
    var s' := Step(s, t, ch);
    EffectOk(m, h, t, th, parked, ch);
    if Idles(m, h, th, e) {
      forall u: nat ensures Locals(s'.m, s'.h, u, At(s', u), u in s'.parked) {
        AtAfter(s, t, e, u);
        assert Locals(s.m, s.h, u, At(s, u), u in s.parked);
      }
    } else {
      StepGlobals(m, h, t, e, parked);
      forall u: nat ensures Locals(s'.m, s'.h, u, At(s', u), u in s'.parked) {
        AtAfter(s, t, e, u);
        if u != t {
          assert Locals(s.m, s.h, u, At(s, u), u in s.parked);
          if t == WORKER && m.ctl.finishState == SpawnFailed { UnstartedIdles(m, h, th, parked, ch); }
          OthersStable(m, h, t, e, u, At(s, u), u in s.parked, parked);
        }
      }
    }
  }

  lemma InvInit()
    ensures Inv(Init())
  {
    forall u: nat ensures Locals(Init().m, Init().h, u, At(Init(), u), u in Init().parked) {
      LocalInit(u);
    }
  }

  lemma LocalInit(u: nat)
    ensures Locals(INITIAL_MEMORY, INITIAL_HISTORY, u, At(Init(), u), false)
  {
    var (m, h, th) := (INITIAL_MEMORY, INITIAL_HISTORY, At(Init(), u));
    assert th == (if u == WORKER then Thread(Out, WStart) else if u == STARTUP then Thread(Out, SParse)
                  else if u == TASK then Thread(Out, THandshake) else Thread(Out, Rest));
    if u == WORKER { WorkerInit(); }
    else if u == STARTUP { StartupInit(); }
    else if u == TASK { TaskInit(); }
    else { CallerInit(u); }
  }

  lemma WorkerInit()
    ensures Locals(INITIAL_MEMORY, INITIAL_HISTORY, WORKER, Thread(Out, WStart), false)
  {
  }

  lemma StartupInit()
    ensures Locals(INITIAL_MEMORY, INITIAL_HISTORY, STARTUP, Thread(Out, SParse), false)
  {
  }

  lemma TaskInit()
    ensures Locals(INITIAL_MEMORY, INITIAL_HISTORY, TASK, Thread(Out, THandshake), false)
  {
  }

  lemma CallerInit(u: nat)
    requires u >= FIRST_CALLER
    ensures Locals(INITIAL_MEMORY, INITIAL_HISTORY, u, Thread(Out, Rest), false)
  {
  }

  lemma {:induction false} InvRun(s: Sys, events: seq<Event>)
    requires Inv(s)
    ensures Inv(Run(s, events))
    decreases |events|
  {
    if events != [] {
      InvStep(s, events[0].thread, events[0].choice);
      InvRun(Step(s, events[0].thread, events[0].choice), events[1..]);
    }
  }

  /** Every reachable state satisfies the invariant. */
  lemma ReachableInv(s: Sys)
    requires Reachable(s)
    ensures Inv(s)
  {
    InvInit();
    var events: seq<Event> :| s == Run(Init(), events);
    InvRun(Init(), events);
  }
}
