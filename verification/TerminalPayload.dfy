/**
 Thirteenth layer: the payload cells. Between the panic and keep_payload exactly
 one thread carries the payload, and it finds its cell empty.
 */
module TerminalPayload {
  import opened TerminalMemory
  import opened TerminalProtocol
  import opened TerminalPanic

  /** Thread `t` carries the only payload of kind `k`; the cell is still empty. */
  predicate Carries(m: Memory, h: History, t: nat, k: PayloadKind) {
    k in h.panics.panicked && k !in m.payloads && k in h.panics.keeper && h.panics.keeper[k] == t
  }

  predicate PayloadGlobal(m: Memory, h: History) {
    m.payloads <= h.panics.panicked
  }

  predicate PayloadLocal(m: Memory, h: History, t: nat, th: Thread) {
    && (InMark(th.lib) ==> Carries(m, h, t, th.lib.kind))
    && (InHookPanic(th.lib) ==> Carries(m, h, t, OfRequest))
    && (InCommit(th.lib) && th.lib.way.ByPanic? ==> Carries(m, h, t, th.lib.way.kind))
    && (InCommit(th.lib) && th.lib.way.ByHookPanic? ==> Carries(m, h, t, OfRequest))
  }

  /** A cell is filled only by the carrier of its payload, and never emptied. */
  ghost predicate PayloadGuarantee(t: nat, m: Memory, h: History, m': Memory, h': History) {
    && Fresh(t, h.panics, h'.panics)
    && m.payloads <= m'.payloads
    && (forall k :: k in m'.payloads && k !in m.payloads ==> Carries(m, h, t, k))
  }

  ghost predicate PayloadStep(m: Memory, h: History, t: nat, e: Effect) {
    && PayloadGlobal(e.m, e.h)
    && PayloadLocal(e.m, e.h, t, e.th)
    && PayloadGuarantee(t, m, h, e.m, e.h)
  }

  lemma PayloadStable(m: Memory, h: History, m': Memory, h': History, t: nat, u: nat, th: Thread)
    requires u != t && PayloadGlobal(m, h) && PayloadLocal(m, h, u, th) && PayloadGuarantee(t, m, h, m', h')
    ensures PayloadLocal(m', h', u, th)
  {
  }

  lemma PayloadCommit(m: Memory, h: History, t: nat, th: Thread, ch: Choice)
    requires PayloadGlobal(m, h) && PayloadLocal(m, h, t, th)
    requires Fresh(t, h.panics, CommitEffect(m, h, t, th, ch).h.panics)
    requires InCommit(th.lib)
    ensures PayloadStep(m, h, t, CommitEffect(m, h, t, th, ch))
  {
  }

  lemma PayloadRequest(m: Memory, h: History, t: nat, th: Thread, ch: Choice)
    requires PayloadGlobal(m, h) && PayloadLocal(m, h, t, th)
    requires Fresh(t, h.panics, RequestEffect(m, h, t, th, ch).h.panics)
    requires InRequest(th.lib)
    ensures PayloadStep(m, h, t, RequestEffect(m, h, t, th, ch))
  {
  }

  lemma PayloadHookPanic(m: Memory, h: History, t: nat, th: Thread)
    requires PayloadGlobal(m, h) && PayloadLocal(m, h, t, th)
    requires Fresh(t, h.panics, HookPanicEffect(m, h, t, th).h.panics)
    requires InHookPanic(th.lib)
    ensures PayloadStep(m, h, t, HookPanicEffect(m, h, t, th))
  {
  }

  lemma PayloadMark(m: Memory, h: History, t: nat, th: Thread)
    requires PayloadGlobal(m, h) && PayloadLocal(m, h, t, th)
    requires Fresh(t, h.panics, MarkEffect(m, h, th).h.panics)
    requires InMark(th.lib)
    ensures PayloadStep(m, h, t, MarkEffect(m, h, th))
  {
  }

  lemma PayloadSchedule(m: Memory, h: History, t: nat, th: Thread, ch: Choice)
    requires PayloadGlobal(m, h) && PayloadLocal(m, h, t, th)
    requires Fresh(t, h.panics, ScheduleEffect(m, h, t, th, ch).h.panics)
    requires InSchedule(th.lib)
    ensures PayloadStep(m, h, t, ScheduleEffect(m, h, t, th, ch))
  {
  }

  lemma PayloadParse(m: Memory, h: History, th: Thread, ch: Choice)
    requires PayloadGlobal(m, h) && PayloadLocal(m, h, STARTUP, th)
    requires Fresh(STARTUP, h.panics, ParseEffect(m, h, th.main, ch).h.panics)
    requires th.lib == Out && InParse(th.main)
    ensures PayloadStep(m, h, STARTUP, ParseEffect(m, h, th.main, ch))
  {
  }

  lemma PayloadFactory(m: Memory, h: History, th: Thread, ch: Choice)
    requires PayloadGlobal(m, h) && PayloadLocal(m, h, STARTUP, th)
    requires Fresh(STARTUP, h.panics, FactoryEffect(m, h, th.main, ch).h.panics)
    requires th.lib == Out && InFactory(th.main)
    ensures PayloadStep(m, h, STARTUP, FactoryEffect(m, h, th.main, ch))
  {
  }

  lemma PayloadAttach(m: Memory, h: History, th: Thread, ch: Choice)
    requires PayloadGlobal(m, h) && PayloadLocal(m, h, STARTUP, th)
    requires Fresh(STARTUP, h.panics, AttachEffect(m, h, th.main, ch).h.panics)
    requires th.lib == Out && InAttach(th.main)
    ensures PayloadStep(m, h, STARTUP, AttachEffect(m, h, th.main, ch))
  {
  }

  lemma PayloadPublish(m: Memory, h: History, th: Thread)
    requires PayloadGlobal(m, h) && PayloadLocal(m, h, STARTUP, th)
    requires Fresh(STARTUP, h.panics, PublishEffect(m, h, th.main).h.panics)
    requires th.lib == Out && InPublish(th.main)
    ensures PayloadStep(m, h, STARTUP, PublishEffect(m, h, th.main))
  {
  }

  lemma PayloadTask(m: Memory, h: History, th: Thread, ch: Choice)
    requires PayloadGlobal(m, h) && PayloadLocal(m, h, TASK, th)
    requires Fresh(TASK, h.panics, TaskEffect(m, h, th.main, ch).h.panics)
    requires th.lib == Out && h.stage.taskSpawned.Yes?
    ensures PayloadStep(m, h, TASK, TaskEffect(m, h, th.main, ch))
  {
  }

  lemma PayloadLoop(m: Memory, h: History, th: Thread, parked: bool, ch: Choice)
    requires PayloadGlobal(m, h) && PayloadLocal(m, h, WORKER, th)
    requires Fresh(WORKER, h.panics, LoopEffect(m, h, th.main, parked, ch).h.panics)
    requires th.lib == Out && InLoop(th.main) && h.stage.workerStarted.Yes?
    ensures PayloadStep(m, h, WORKER, LoopEffect(m, h, th.main, parked, ch))
  {
  }

  lemma PayloadOperation(m: Memory, h: History, th: Thread, ch: Choice)
    requires PayloadGlobal(m, h) && PayloadLocal(m, h, WORKER, th)
    requires Fresh(WORKER, h.panics, OperationEffect(m, h, th.main, ch).h.panics)
    requires th.lib == Out && InOperation(th.main) && h.stage.workerStarted.Yes?
    ensures PayloadStep(m, h, WORKER, OperationEffect(m, h, th.main, ch))
  {
  }

  lemma PayloadClosure(m: Memory, h: History, th: Thread, ch: Choice)
    requires PayloadGlobal(m, h) && PayloadLocal(m, h, WORKER, th)
    requires Fresh(WORKER, h.panics, ClosureEffect(m, h, th.main, ch).h.panics)
    requires th.lib == Out && InClosure(th.main) && h.stage.workerStarted.Yes?
    ensures PayloadStep(m, h, WORKER, ClosureEffect(m, h, th.main, ch))
  {
  }

  lemma PayloadParsed(m: Memory, h: History, th: Thread, ch: Choice)
    requires PayloadGlobal(m, h) && PayloadLocal(m, h, WORKER, th)
    requires Fresh(WORKER, h.panics, ParsedEffect(m, h, th.main, ch).h.panics)
    requires th.lib == Out && InParsed(th.main) && h.stage.workerStarted.Yes?
    ensures PayloadStep(m, h, WORKER, ParsedEffect(m, h, th.main, ch))
  {
    var e := ParsedEffect(m, h, th.main, ch);
    assert PayloadStep(m, h, WORKER, e);
  }

  lemma PayloadSettle(m: Memory, h: History, th: Thread, ch: Choice)
    requires PayloadGlobal(m, h) && PayloadLocal(m, h, WORKER, th)
    requires Fresh(WORKER, h.panics, SettleEffect(m, h, th.main, ch).h.panics)
    requires th.lib == Out && InSettle(th.main) && h.stage.workerStarted.Yes?
    ensures PayloadStep(m, h, WORKER, SettleEffect(m, h, th.main, ch))
  {
  }

  lemma PayloadRelease(m: Memory, h: History, th: Thread, ch: Choice)
    requires PayloadGlobal(m, h) && PayloadLocal(m, h, WORKER, th)
    requires Fresh(WORKER, h.panics, ReleaseEffect(m, h, th.main, ch).h.panics)
    requires th.lib == Out && InRelease(th.main) && h.stage.workerStarted.Yes?
    ensures PayloadStep(m, h, WORKER, ReleaseEffect(m, h, th.main, ch))
  {
    var e := ReleaseEffect(m, h, th.main, ch);
    assert PayloadStep(m, h, WORKER, e);
  }

  lemma PayloadFinish(m: Memory, h: History, th: Thread, ch: Choice)
    requires PayloadGlobal(m, h) && PayloadLocal(m, h, WORKER, th)
    requires Fresh(WORKER, h.panics, FinishEffect(m, h, th.main, ch).h.panics)
    requires th.lib == Out && InFinish(th.main) && h.stage.workerStarted.Yes?
    ensures PayloadStep(m, h, WORKER, FinishEffect(m, h, th.main, ch))
  {
  }

  lemma PayloadStart(m: Memory, h: History, t: nat, th: Thread, ch: Choice)
    requires PayloadGlobal(m, h) && PayloadLocal(m, h, t, th)
    requires Fresh(t, h.panics, StartEffect(m, h, ch).h.panics)
    requires t >= FIRST_CALLER && th == Thread(Out, Rest)
    ensures PayloadStep(m, h, t, StartEffect(m, h, ch))
  {
  }

  lemma PayloadShutdown(m: Memory, h: History, t: nat, th: Thread, parked: bool, ch: Choice)
    requires PayloadGlobal(m, h) && PayloadLocal(m, h, t, th)
    requires Fresh(t, h.panics, ShutdownEffect(m, h, th.main, parked, ch).h.panics)
    requires t >= FIRST_CALLER && th.lib == Out && InShutdown(th.main) && h.stage.exposed.Yes?
    ensures PayloadStep(m, h, t, ShutdownEffect(m, h, th.main, parked, ch))
  {
  }

  lemma PayloadVerdict(m: Memory, h: History, t: nat, th: Thread, ch: Choice)
    requires PayloadGlobal(m, h) && PayloadLocal(m, h, t, th)
    requires Fresh(t, h.panics, VerdictEffect(m, h, th.main, ch).h.panics)
    requires t >= FIRST_CALLER && th.lib == Out && InVerdict(th.main) && h.stage.exposed.Yes?
    ensures PayloadStep(m, h, t, VerdictEffect(m, h, th.main, ch))
  {
  }

  lemma PayloadOwner(m: Memory, h: History, t: nat, th: Thread)
    requires PayloadGlobal(m, h) && PayloadLocal(m, h, t, th)
    requires Fresh(t, h.panics, OwnerEffect(m, h, th.main).h.panics)
    requires t >= FIRST_CALLER && th.lib == Out && InOwner(th.main) && h.stage.exposed.Yes?
    ensures PayloadStep(m, h, t, OwnerEffect(m, h, th.main))
  {
  }

  lemma PayloadAdmit(m: Memory, h: History, t: nat, th: Thread, ch: Choice)
    requires PayloadGlobal(m, h) && PayloadLocal(m, h, t, th)
    requires Fresh(t, h.panics, AdmitEffect(m, h, t, th.main, ch).h.panics)
    requires t >= FIRST_CALLER && th.lib == Out && InAdmit(th.main) && h.stage.exposed.Yes?
    ensures PayloadStep(m, h, t, AdmitEffect(m, h, t, th.main, ch))
  {
    var e := AdmitEffect(m, h, t, th.main, ch);
    assert PayloadStep(m, h, t, e);
  }

  lemma PayloadCallback(m: Memory, h: History, t: nat, th: Thread, ch: Choice)
    requires PayloadGlobal(m, h) && PayloadLocal(m, h, t, th)
    requires Fresh(t, h.panics, CallbackEffect(m, h, t, th.main, ch).h.panics)
    requires t >= FIRST_CALLER && th.lib == Out && InCallback(th.main) && h.stage.exposed.Yes?
    ensures PayloadStep(m, h, t, CallbackEffect(m, h, t, th.main, ch))
  {
    var e := CallbackEffect(m, h, t, th.main, ch);
    assert PayloadStep(m, h, t, e);
  }

  lemma PayloadSubmission(m: Memory, h: History, t: nat, th: Thread)
    requires PayloadGlobal(m, h) && PayloadLocal(m, h, t, th)
    requires Fresh(t, h.panics, SubmissionEffect(m, h, t, th.main).h.panics)
    requires t >= FIRST_CALLER && th.lib == Out && InSubmission(th.main) && h.stage.exposed.Yes?
    ensures PayloadStep(m, h, t, SubmissionEffect(m, h, t, th.main))
  {
  }

  lemma PayloadAwait(m: Memory, h: History, t: nat, th: Thread, parked: bool, ch: Choice)
    requires PayloadGlobal(m, h) && PayloadLocal(m, h, t, th)
    requires Fresh(t, h.panics, AwaitEffect(m, h, th.main, parked, ch).h.panics)
    requires t >= FIRST_CALLER && th.lib == Out && InAwait(th.main) && h.stage.exposed.Yes?
    ensures PayloadStep(m, h, t, AwaitEffect(m, h, th.main, parked, ch))
  {
  }

  lemma PayloadSecond(m: Memory, h: History, t: nat, th: Thread, ch: Choice)
    requires PayloadGlobal(m, h) && PayloadLocal(m, h, t, th)
    requires Fresh(t, h.panics, SecondEffect(m, h, th.main, ch).h.panics)
    requires t >= FIRST_CALLER && th.lib == Out && InSecond(th.main) && h.stage.exposed.Yes?
    ensures PayloadStep(m, h, t, SecondEffect(m, h, th.main, ch))
  {
  }

  lemma PayloadConclude(m: Memory, h: History, t: nat, th: Thread, ch: Choice)
    requires PayloadGlobal(m, h) && PayloadLocal(m, h, t, th)
    requires Fresh(t, h.panics, ConcludeEffect(m, h, t, th.main, ch).h.panics)
    requires t >= FIRST_CALLER && th.lib == Out && InConclude(th.main) && h.stage.exposed.Yes?
    ensures PayloadStep(m, h, t, ConcludeEffect(m, h, t, th.main, ch))
  {
    var e := ConcludeEffect(m, h, t, th.main, ch);
    assert PayloadStep(m, h, t, e);
  }
}
