/**
 What terminal_shutdown's TB_OK says about the run that led to it: the caller
 itself saw a published physical stop, then sampled the host once more, and then
 found no fault.
 */
module TerminalVerdict {
  import opened Wrappers
  import opened TerminalMemory
  import opened TerminalProtocol
  import opened TerminalInvariant
  import opened TerminalRuns
  import opened TerminalTheorems

  // ---------------------------------------------------------------- what one step can do to the verdict

  lemma ParseAside(m: Memory, h: History, main: Main, ch: Choice)
    ensures InParse(main) ==> !InVerdict(ParseEffect(m, h, main, ch).th.main)
    ensures InFactory(main) ==> !InVerdict(FactoryEffect(m, h, main, ch).th.main)
  {
  }

  lemma AttachAside(m: Memory, h: History, main: Main, ch: Choice)
    ensures InAttach(main) ==> !InVerdict(AttachEffect(m, h, main, ch).th.main)
    ensures InPublish(main) ==> !InVerdict(PublishEffect(m, h, main).th.main)
  {
  }

  lemma StartupAside(m: Memory, h: History, main: Main, ch: Choice)
    requires !InVerdict(main)
    ensures !InVerdict(StartupEffect(m, h, main, ch).th.main)
  {
    if InParse(main) || InFactory(main) {
      ParseAside(m, h, main, ch);
    } else if InAttach(main) || InPublish(main) {
      AttachAside(m, h, main, ch);
    } else {
      OffStartupIdles(m, h, Thread(Out, main), ch);
    }
  }

  predicate InTask(main: Main) {
    || main.THandshake? || main.TObserve? || main.TLive? || main.TRecheck?
    || main.TSetup? || main.TPoll? || main.TEnd?
  }

  lemma TaskEndsAside(m: Memory, h: History, main: Main, ch: Choice)
    requires main.THandshake? || main.TPoll? || main.TLive?
    ensures !InVerdict(TaskEffect(m, h, main, ch).th.main)
  {
  }

  lemma TaskSetsAside(m: Memory, h: History, main: Main, ch: Choice)
    requires main.TObserve? || main.TRecheck? || main.TSetup? || main.TEnd?
    ensures !InVerdict(TaskEffect(m, h, main, ch).th.main)
  {
  }

  lemma OffTaskIdles(m: Memory, h: History, main: Main, ch: Choice)
    requires !InTask(main)
    ensures TaskEffect(m, h, main, ch).th.main == main
  {
    assert TaskEffect(m, h, main, ch) == Blocked(m, h, main);
  }

  lemma TaskAside(m: Memory, h: History, main: Main, ch: Choice)
    requires !InVerdict(main)
    ensures !InVerdict(TaskEffect(m, h, main, ch).th.main)
  {
    if main.THandshake? || main.TPoll? || main.TLive? {
      TaskEndsAside(m, h, main, ch);
    } else if InTask(main) {
      TaskSetsAside(m, h, main, ch);
    } else {
      OffTaskIdles(m, h, main, ch);
    }
  }

  lemma OwnerAside(m: Memory, h: History, main: Main, ch: Choice)
    ensures !InVerdict(StartEffect(m, h, ch).th.main)
    ensures InOwner(main) ==> !InVerdict(OwnerEffect(m, h, main).th.main)
  {
  }

  lemma AdmissionAside(m: Memory, h: History, t: nat, main: Main, ch: Choice)
    ensures InAdmit(main) ==> !InVerdict(AdmitEffect(m, h, t, main, ch).th.main)
    ensures InCallback(main) ==> !InVerdict(CallbackEffect(m, h, t, main, ch).th.main)
  {
  }

  lemma WaitAside(m: Memory, h: History, t: nat, main: Main, parked: bool, ch: Choice)
    ensures InSubmission(main) ==> !InVerdict(SubmissionEffect(m, h, t, main).th.main)
    ensures InAwait(main) ==> !InVerdict(AwaitEffect(m, h, main, parked, ch).th.main)
  {
  }

  lemma ConclusionAside(m: Memory, h: History, t: nat, main: Main, ch: Choice)
    ensures InSecond(main) ==> !InVerdict(SecondEffect(m, h, main, ch).th.main)
    ensures InConclude(main) ==> !InVerdict(ConcludeEffect(m, h, t, main, ch).th.main)
  {
  }

  /** A caller outside terminal_shutdown does not step into its verdict. */
  lemma CallerAside(m: Memory, h: History, t: nat, main: Main, parked: bool, ch: Choice)
    requires !InShutdown(main) && !InVerdict(main)
    ensures !InVerdict(CallerEffect(m, h, t, main, parked, ch).th.main)
  {
    OwnerAside(m, h, main, ch);
    AdmissionAside(m, h, t, main, ch);
    WaitAside(m, h, t, main, parked, ch);
    ConclusionAside(m, h, t, main, ch);
    if InAwait(main) {
      AwaitRoute(m, h, t, main, parked, ch);
    } else if InSecond(main) {
      SecondRoute(m, h, t, main, parked, ch);
    } else if InConclude(main) {
      ConcludeRoute(m, h, t, main, parked, ch);
    } else if OffCaller(main) {
      OffCallerIdles(m, h, t, Thread(Out, main), parked, ch);
    }
  }

  /** How a caller can arrive at a sample, at the check of a stop, and at TB_OK. */
  predicate Arrives(m: Memory, th: Thread, ch: Choice, next: Thread) {
    && (next.main == HSample(PhysicallyStopped) ==>
          th == Thread(Out, HWait) && m.ctl.completion == Some(PhysicallyStopped))
    && (next.main == HCheck(PhysicallyStopped) ==>
          th == Thread(Out, HSample(PhysicallyStopped)) && (SampledFault(ch) ==> Committing(next.lib)))
    && (next.main == HReturn(TB_OK) ==> th == Thread(Out, HCheck(PhysicallyStopped)) && !HasFault(m))
  }

  /** The host answered the sample with a fault-class reason. */
  predicate SampledFault(ch: Choice) {
    ch.Observed? && ch.seen.Some? && FaultClass(ch.seen.value)
  }

  /** On the way to committing a fault-class cause. */
  predicate Committing(lib: Lib) {
    InCommit(lib) && FaultClass(lib.cause)
  }

  lemma ShutdownArrives(m: Memory, h: History, main: Main, parked: bool, ch: Choice)
    requires InShutdown(main)
    ensures Arrives(m, Thread(Out, main), ch, ShutdownEffect(m, h, main, parked, ch).th)
  {
  }

  lemma VerdictArrives(m: Memory, h: History, main: Main, ch: Choice)
    requires InVerdict(main)
    ensures Arrives(m, Thread(Out, main), ch, VerdictEffect(m, h, main, ch).th)
  {
  }

  lemma ShutdownRoute(m: Memory, h: History, t: nat, main: Main, parked: bool, ch: Choice)
    requires InShutdown(main)
    ensures CallerEffect(m, h, t, main, parked, ch) == ShutdownEffect(m, h, main, parked, ch)
  {
  }

  lemma VerdictRoute(m: Memory, h: History, t: nat, main: Main, parked: bool, ch: Choice)
    requires InVerdict(main)
    ensures CallerEffect(m, h, t, main, parked, ch) == VerdictEffect(m, h, main, ch)
  {
  }

  lemma CallerArrives(m: Memory, h: History, t: nat, main: Main, parked: bool, ch: Choice)
    ensures Arrives(m, Thread(Out, main), ch, CallerEffect(m, h, t, main, parked, ch).th)
  {
    if InShutdown(main) {
      ShutdownRoute(m, h, t, main, parked, ch);
      ShutdownArrives(m, h, main, parked, ch);
    } else if InVerdict(main) {
      VerdictRoute(m, h, t, main, parked, ch);
      VerdictArrives(m, h, main, ch);
    } else {
      CallerAside(m, h, t, main, parked, ch);
    }
  }

  lemma EffectArrives(m: Memory, h: History, t: nat, th: Thread, parked: bool, ch: Choice)
    requires t != WORKER && th.lib == Out && (t < FIRST_CALLER ==> !InVerdict(th.main))
    ensures var next := EffectOf(m, h, t, th, parked, ch).th;
            Arrives(m, th, ch, next) && (t < FIRST_CALLER ==> !InVerdict(next.main))
  {
    if t == STARTUP {
      StartupAside(m, h, th.main, ch);
    } else if t == TASK {
      TaskAside(m, h, th.main, ch);
    } else {
      CallerArrives(m, h, t, th.main, parked, ch);
    }
  }

  /** One step of thread `t`: only a caller gets near a verdict, and only by the three arrivals. */
  lemma StepArrives(s: Sys, t: nat, ch: Choice)
    requires Inv(s) && (t < FIRST_CALLER ==> !InVerdict(At(s, t).main))
    ensures t < FIRST_CALLER ==> !InVerdict(At(Step(s, t, ch), t).main)
    ensures At(s, t).lib != Out ==> At(Step(s, t, ch), t).main == At(s, t).main
    ensures At(s, t).lib == Out ==> Arrives(s.m, At(s, t), ch, At(Step(s, t, ch), t))
  {
    if At(s, t).lib != Out {
      LibKeepsFrame(s.m, s.h, t, At(s, t), ch);
    } else if t == WORKER {
      InvStep(s, t, ch);
      WorkerPlaced(Step(s, t, ch));
    } else {
      EffectArrives(s.m, s.h, t, At(s, t), t in s.parked, ch);
    }
  }

  lemma WorkerPlaced(s: Sys)
    requires Inv(s)
    ensures !InVerdict(At(s, WORKER).main)
  {
    assert Locals(s.m, s.h, WORKER, At(s, WORKER), WORKER in s.parked);
  }

  /** A fault is recorded, or this thread is about to record one. */
  predicate Doomed(m: Memory, th: Thread) {
    HasFault(m) || Committing(th.lib)
  }

  lemma CommitDooms(m: Memory, h: History, t: nat, th: Thread, ch: Choice)
    requires Committing(th.lib)
    ensures Doomed(CommitEffect(m, h, t, th, ch).m, CommitEffect(m, h, t, th, ch).th)
  {
  }

  lemma StepDooms(s: Sys, u: nat, ch: Choice, t: nat)
    requires Inv(s) && Doomed(s.m, At(s, t))
    ensures Doomed(Step(s, u, ch).m, At(Step(s, u, ch), t))
  {
    StepPersists(s, u, ch);
    if u == t && Committing(At(s, t).lib) {
      CommitDooms(s.m, s.h, t, At(s, t), ch);
    }
  }

  // ---------------------------------------------------------------- the run behind a verdict

  /** `states` are the states before, between and after the events of a run. */
  ghost predicate IsRun(states: seq<Sys>, events: seq<Event>) {
    Chained(states, events) && states[0] == Init()
  }

  ghost predicate Chained(states: seq<Sys>, events: seq<Event>) {
    |states| == |events| + 1 && forall n: nat | n < |events| :: Stepped(states, events, n)
  }

  predicate Stepped(states: seq<Sys>, events: seq<Event>, n: nat)
    requires n < |events| < |states|
  {
    states[n + 1] == Step(states[n], events[n].thread, events[n].choice)
  }

  /** From the state after event `from` up to state `to` thread `t` was at `main`. */
  ghost predicate Stays(states: seq<Sys>, t: nat, from: nat, to: nat, main: Main)
    requires to < |states|
  {
    forall n: nat :: from < n <= to ==> At(states[n], t).main == main
  }

  /** At event `i` the caller ended its wait with a stop published, and is about to sample the host. */
  ghost predicate Sampling(states: seq<Sys>, events: seq<Event>, t: nat, i: nat, to: nat)
    requires to <= |events| < |states|
  {
    && i < to && events[i].thread == t && At(states[i], t) == Thread(Out, HWait)
    && states[i].m.ctl.completion == Some(PhysicallyStopped)
    && Stays(states, t, i, to, HSample(PhysicallyStopped))
  }

  /** At event `j` it sampled the host, and is about to check for a fault. */
  ghost predicate Checking(states: seq<Sys>, events: seq<Event>, t: nat, i: nat, j: nat, to: nat)
    requires to <= |events| < |states|
  {
    && j < to && Sampling(states, events, t, i, j)
    && events[j].thread == t && At(states[j], t) == Thread(Out, HSample(PhysicallyStopped))
    && Stays(states, t, j, to, HCheck(PhysicallyStopped))
    && (SampledFault(events[j].choice) ==> Doomed(states[to].m, At(states[to], t)))
  }

  /** At event `k` it found no fault and has answered TB_OK since. */
  ghost predicate Verdict(states: seq<Sys>, events: seq<Event>, t: nat, i: nat, j: nat, k: nat, to: nat)
    requires to <= |events| < |states|
  {
    && k < to && Checking(states, events, t, i, j, k)
    && events[k].thread == t && At(states[k], t) == Thread(Out, HCheck(PhysicallyStopped))
    && !HasFault(states[k].m) && !SampledFault(events[j].choice)
    && Stays(states, t, k, to, HReturn(TB_OK))
  }

  /** How the thread got where it is in state `n`. */
  ghost predicate Explained(states: seq<Sys>, events: seq<Event>, t: nat, n: nat, i: nat, j: nat, k: nat)
    requires n <= |events| < |states|
  {
    var main := At(states[n], t).main;
    && (t < FIRST_CALLER ==> !InVerdict(main))
    && (main == HSample(PhysicallyStopped) ==> Sampling(states, events, t, i, n))
    && (main == HCheck(PhysicallyStopped) ==> Checking(states, events, t, i, j, n))
    && (main == HReturn(TB_OK) ==> Verdict(states, events, t, i, j, k, n))
  }

  lemma StaysLonger(states: seq<Sys>, t: nat, from: nat, to: nat, main: Main)
    requires to + 1 < |states| && Stays(states, t, from, to, main) && At(states[to + 1], t).main == main
    ensures Stays(states, t, from, to + 1, main)
  {
  }

  lemma StaysNew(states: seq<Sys>, t: nat, from: nat)
    requires from + 1 < |states|
    ensures Stays(states, t, from, from + 1, At(states[from + 1], t).main)
  {
  }

  /** Where the thread did not move to or from a verdict, its explanation still holds. */
  lemma ExplainedLonger(states: seq<Sys>, events: seq<Event>, t: nat, n: nat, i: nat, j: nat, k: nat)
    requires n < |events| < |states| && Explained(states, events, t, n, i, j, k)
    requires At(states[n + 1], t).main == At(states[n], t).main
    requires Doomed(states[n].m, At(states[n], t)) ==> Doomed(states[n + 1].m, At(states[n + 1], t))
    ensures Explained(states, events, t, n + 1, i, j, k)
  {
    var main := At(states[n], t).main;
    if main == HSample(PhysicallyStopped) {
      StaysLonger(states, t, i, n, main);
    } else if main == HCheck(PhysicallyStopped) {
      StaysLonger(states, t, j, n, main);
    } else if main == HReturn(TB_OK) {
      StaysLonger(states, t, k, n, main);
    }
  }

  lemma ReturnArrival(states: seq<Sys>, events: seq<Event>, t: nat, n: nat, i: nat, j: nat)
    requires n < |events| < |states| && Checking(states, events, t, i, j, n) && events[n].thread == t
    requires At(states[n], t) == Thread(Out, HCheck(PhysicallyStopped)) && !HasFault(states[n].m)
    requires At(states[n + 1], t).main == HReturn(TB_OK)
    ensures Verdict(states, events, t, i, j, n, n + 1)
  {
    StaysNew(states, t, n);
  }

  /** The thread's own step, outside the library, arrives somewhere. */
  lemma ExplainedArrival(states: seq<Sys>, events: seq<Event>, t: nat, n: nat, i: nat, j: nat, k: nat)
    returns (i': nat, j': nat, k': nat)
    requires n < |events| < |states| && Explained(states, events, t, n, i, j, k) && events[n].thread == t
    requires At(states[n], t).lib == Out && (t < FIRST_CALLER ==> !InVerdict(At(states[n + 1], t).main))
    requires Arrives(states[n].m, At(states[n], t), events[n].choice, At(states[n + 1], t))
    ensures Explained(states, events, t, n + 1, i', j', k')
  {
    i', j', k' := i, j, k;
    StaysNew(states, t, n);
    var main := At(states[n + 1], t).main;
    if main == HSample(PhysicallyStopped) {
      i' := n;
    } else if main == HCheck(PhysicallyStopped) {
      j' := n;
    } else if main == HReturn(TB_OK) {
      k' := n;
      ReturnArrival(states, events, t, n, i, j);
    }
  }

  lemma InitAside(t: nat)
    ensures !InVerdict(At(Init(), t).main)
  {
  }

  lemma StepExplained(states: seq<Sys>, events: seq<Event>, t: nat, n: nat, i: nat, j: nat, k: nat)
    returns (i': nat, j': nat, k': nat)
    requires n < |events| < |states| && Explained(states, events, t, n, i, j, k)
    requires Inv(states[n]) && Stepped(states, events, n)
    ensures Inv(states[n + 1]) && Explained(states, events, t, n + 1, i', j', k')
  {
    var (s, e) := (states[n], events[n]);
    i', j', k' := i, j, k;
    InvStep(s, e.thread, e.choice);
    if e.thread == t {
      StepArrives(s, t, e.choice);
    }
    if e.thread == t && At(s, t).lib == Out {
      i', j', k' := ExplainedArrival(states, events, t, n, i, j, k);
    } else {
      if Doomed(s.m, At(s, t)) {
        StepDooms(s, e.thread, e.choice, t);
      }
      ExplainedLonger(states, events, t, n, i, j, k);
    }
  }

  lemma NextExplained(states: seq<Sys>, events: seq<Event>, t: nat, n: nat, i: nat, j: nat, k: nat)
    returns (i': nat, j': nat, k': nat)
    requires Chained(states, events) && n < |events|
    requires Inv(states[n]) && Explained(states, events, t, n, i, j, k)
    ensures Inv(states[n + 1]) && Explained(states, events, t, n + 1, i', j', k')
  {
    assert Stepped(states, events, n);
    i', j', k' := StepExplained(states, events, t, n, i, j, k);
  }

  lemma FirstExplained(states: seq<Sys>, events: seq<Event>, t: nat)
    requires IsRun(states, events)
    ensures Inv(states[0]) && Explained(states, events, t, 0, 0, 0, 0)
  {
    InvInit();
    InitAside(t);
  }

  lemma {:induction false} RunExplained(states: seq<Sys>, events: seq<Event>, t: nat, n: nat, i: nat, j: nat, k: nat)
    returns (i': nat, j': nat, k': nat)
    requires Chained(states, events) && n <= |events|
    requires Inv(states[n]) && Explained(states, events, t, n, i, j, k)
    ensures Inv(states[|events|]) && Explained(states, events, t, |events|, i', j', k')
    decreases |events| - n
  {
    i', j', k' := i, j, k;
    if n < |events| {
      i', j', k' := NextExplained(states, events, t, n, i, j, k);
      i', j', k' := RunExplained(states, events, t, n + 1, i', j', k');
    }
  }

  /**
   TB_OK is only ever the last of three steps of the caller itself: at `i` its wait
   ended on a published physical stop, at `j` it sampled the host and the host
   reported no fault, and at `k` no fault had been committed by anybody.
   */
  lemma ShutdownOkNeedsNoFault(states: seq<Sys>, events: seq<Event>, t: nat)
    returns (i: nat, j: nat, k: nat)
    requires IsRun(states, events) && At(states[|events|], t).main == HReturn(TB_OK)
    ensures t >= FIRST_CALLER && i < j < k && Verdict(states, events, t, i, j, k, |events|)
  {
    FirstExplained(states, events, t);
    i, j, k := RunExplained(states, events, t, 0, 0, 0, 0);
  }

  /** Such a sequence of states is what `Run` goes through. */
  lemma {:induction false} RunIsRun(states: seq<Sys>, events: seq<Event>, n: nat)
    requires IsRun(states, events) && n <= |events|
    ensures Run(states[n], events[n..]) == states[|events|]
    decreases |events| - n
  {
    if n < |events| {
      assert Stepped(states, events, n);
      assert events[n..][1..] == events[n + 1..];
      RunIsRun(states, events, n + 1);
    }
  }

  /** Every run has such states. */
  function StatesOf(s: Sys, events: seq<Event>): (states: seq<Sys>)
    ensures |states| == |events| + 1 && states[0] == s
    decreases |events|
  {
    if events == [] then [s] else [s] + StatesOf(Step(s, events[0].thread, events[0].choice), events[1..])
  }

  lemma {:induction false} StatesStep(s: Sys, events: seq<Event>, n: nat)
    requires n < |events|
    ensures Stepped(StatesOf(s, events), events, n)
    decreases n
  {
    if n > 0 {
      StatesStep(Step(s, events[0].thread, events[0].choice), events[1..], n - 1);
    }
  }

  lemma EveryRunHasStates(events: seq<Event>)
    ensures IsRun(StatesOf(Init(), events), events)
    ensures StatesOf(Init(), events)[|events|] == Run(Init(), events)
  {
    forall n: nat | n < |events| ensures Stepped(StatesOf(Init(), events), events, n) {
      StatesStep(Init(), events, n);
    }
    RunIsRun(StatesOf(Init(), events), events, 0);
    assert events[0..] == events;
  }
}
