/**
 The shared memory of one terminal instance and the effect of each of its
 atomic regions: one function per Control lock region, atomic load or
 compare-and-swap of crates/tinybus-module/src/terminal.rs. The class in
 TerminalState.dfy performs the same regions in place; the interleaving model
 in TerminalProtocol.dfy runs them from many threads.
 */
module TerminalMemory {
  import opened Wrappers

  /** Return codes of the module ABI. */
  const TB_OK: int := 0
  const TB_CLOSED: int := -2
  const TB_PANICKED: int := -3
  const TB_BAD_ARGUMENT: int := -5

  datatype Cause = Stop | HostClosed | Fault | SetupFailed

  datatype Completion = PhysicallyStopped | Uncertain

  datatype RequestState = Unregistered | RequestIdle | RequestRunning | RequestDone | RequestPanicked

  datatype FinishState = FinishIdle | Submitted | FinishRunning | Complete | SpawnFailed

  /** How the initial setup task ended, as its join handle reports it. */
  datatype TaskOutcome = TaskOk | TaskErr | TaskCancelled | TaskPanicked

  datatype PayloadKind = OfRequest | OfFinish | OfInitial | OfReinit | OfFactory | OfStartup | OfCleanup

  /** The single reinitialization cell; a construction carries the identity of its caller's closure. */
  datatype Operation = Retire | Construct(id: nat)

  /** Owners attached during startup, reinitialization or setup, each in its own slot. */
  datatype Resource =
    | InitialTask | InitialFuture | Callback | ReinitFuture
    | SetupFn | Factory | Config | ReinitializerFactory | ConnectionSlot | Inbound | Transport | Runtime

  /** Hooks, publication and outcome: the first half of the mutex-guarded record. */
  datatype Control = Control(
    request: Bit,
    finish: Bit,
    requestState: RequestState,
    finishState: FinishState,
    published: Bit,
    completion: Option<Completion>)

  /** The reinitialization rendezvous: the second half of the same record. */
  datatype ReinitCell = ReinitCell(
    activeReinit: Bit,
    operation: Option<Operation>,
    constructionCode: int,
    priorPending: Bit,
    retirementFailed: Bit)

  /** What startup attached, the SDK owner count, and the join handle's result. */
  datatype Resources = Resources(held: set<Resource>, owners: nat, initialResult: Option<TaskOutcome>)

  datatype Memory = Memory(
    reason: nat,
    uncertain: Bit,
    anchored: Bit,
    vtablePublished: Bit,
    payloads: set<PayloadKind>,
    ctl: Control,
    cell: ReinitCell,
    res: Resources)

  const INITIAL_MEMORY := Memory(
    0, No, Yes, No, {},
    Control(No, No, Unregistered, FinishIdle, No, None),
    ReinitCell(No, None, TB_CLOSED, No, No),
    Resources({}, 0, None))

  function Hold(m: Memory, rs: set<Resource>): Memory {
    m.(res := m.res.(held := m.res.held + rs))
  }

  function AddOwner(m: Memory): Memory {
    m.(res := m.res.(owners := m.res.owners + 1))
  }

  function Take(m: Memory, r: Resource): Memory {
    m.(res := m.res.(held := m.res.held - {r}))
  }

  // ---------------------------------------------------------------- reason

  function Code(c: Cause): nat {
    match c
    case Stop => 1
    case HostClosed => 2
    case Fault => 3
    case SetupFailed => 4
  }

  /** Fault and SetupFailed take precedence over ordinary closure. */
  predicate FaultClass(c: Cause) {
    c == Fault || c == SetupFailed
  }

  predicate Terminal(m: Memory) {
    m.reason != 0
  }

  predicate HasFault(m: Memory) {
    m.reason >= 3
  }

  /** The loop guard of `commit`: may a writer that saw `seen` still try to store `c`? */
  predicate MayReplace(seen: nat, c: Cause) {
    seen == 0 || (seen < 3 && Code(c) >= 3)
  }

  /**
   What a history of commits must leave behind: the first fault-class cause if
   any was committed, otherwise the first cause, otherwise nothing.
   */
  function Winner(log: seq<Cause>): nat {
    if log == [] then 0
    else Override(Winner(log[..|log| - 1]), log[|log| - 1])
  }

  /** The reason after one more cause. */
  function Override(reason: nat, c: Cause): nat {
    if reason == 0 || (reason < 3 && FaultClass(c)) then Code(c) else reason
  }

  // ---------------------------------------------------------------- regions

  /** record_uncertain_locked: the flag, the downgrade and the anchor change together. */
  function RecordUncertain(m: Memory): Memory {
    m.(uncertain := Yes, anchored := Yes, ctl := m.ctl.(completion := Downgrade(m.ctl.completion)))
  }

  function Downgrade(completion: Option<Completion>): Option<Completion> {
    if completion == Some(PhysicallyStopped) then Some(Uncertain) else completion
  }

  function Register(m: Memory): Memory {
    m.(ctl := m.ctl.(request := Yes, finish := Yes, requestState := RequestIdle))
  }

  /** The admission test at the head of run_request. */
  predicate RequestDue(m: Memory) {
    Terminal(m) && m.ctl.requestState == RequestIdle
  }

  function SettleRequest(m: Memory, panicked: bool): Memory {
    if panicked then
      m.(uncertain := Yes, anchored := Yes,
         ctl := m.ctl.(requestState := RequestPanicked, completion := Downgrade(m.ctl.completion)))
    else m.(ctl := m.ctl.(requestState := RequestDone))
  }

  /** The admission test and the state change of begin_reinit. */
  predicate ReinitAdmitted(m: Memory) {
    !Terminal(m) && m.cell.activeReinit.No?
  }

  function Submit(m: Memory, operation: Operation): Memory {
    m.(cell := m.cell.(operation := Some(operation), priorPending := Yes))
  }

  function Acknowledge(m: Memory, failed: Bit, code: int): Memory {
    var retirementFailed := if failed.Yes? then Yes else m.cell.retirementFailed;
    m.(cell := m.cell.(retirementFailed := retirementFailed, constructionCode := code, priorPending := No))
  }

  /** The wait condition of retire_reinit and construct_reinit. */
  predicate ReinitMustWait(m: Memory) {
    m.cell.priorPending.Yes? && m.ctl.finishState != SpawnFailed
  }

  function RejectWorker(m: Memory): Memory {
    m.(uncertain := Yes, anchored := Yes,
       ctl := m.ctl.(finishState := SpawnFailed, completion := Some(Uncertain)))
  }

  /** The worker may leave its loop: nothing to run and every earlier party is out of the way. */
  predicate WorkerMayLeave(m: Memory) {
    && m.cell.operation == None
    && m.ctl.published.Yes?
    && m.cell.activeReinit.No?
    && m.ctl.requestState != RequestIdle
    && m.ctl.requestState != RequestRunning
  }

  /** The last lock region of run_finish: linearizes anchor retirement with publication. */
  function Finalize(m: Memory, completed: Completion, failed: Bit): Memory {
    var uncertain := if failed.Yes? then Yes else m.uncertain;
    var outcome := if uncertain.Yes? then Uncertain else completed;
    m.(uncertain := uncertain,
       anchored := if outcome == PhysicallyStopped then No else if failed.Yes? then Yes else m.anchored,
       ctl := m.ctl.(finishState := Complete, completion := Some(outcome)))
  }

  // ---------------------------------------------------------------- cleanup orders

  /** dispose_setup takes four captures; the third is the request hook, which is no resource. */
  const CAPTURES: nat := 4

  const REQUEST_CAPTURE: nat := 2

  /** Position among the captures of dispose_setup; everything else has none. */
  function CaptureRank(r: Resource): nat {
    match r
    case InitialFuture => 0
    case Callback => 1
    case ReinitFuture => 3
    case _ => CAPTURES
  }

  /** What is left of `held` after the first `k` takes of the disposal. */
  function CapturesAfter(held: set<Resource>, k: nat): set<Resource> {
    set r | r in held && CaptureRank(r) >= k
  }

  lemma CapturesAfterTake(held: set<Resource>)
    ensures CapturesAfter(held, 0) == held
    ensures CapturesAfter(held, 1) == CapturesAfter(held, 0) - {InitialFuture}
    ensures CapturesAfter(held, 2) == CapturesAfter(held, 1) - {Callback}
    ensures CapturesAfter(held, 3) == CapturesAfter(held, 2)
    ensures CapturesAfter(held, 4) == CapturesAfter(held, 3) - {ReinitFuture}
  {
  }

  /** The owners release_resources takes, one at a time, in this order. */
  const RELEASES: nat := 8

  function ReleaseAt(k: nat): Resource {
    if k == 0 then SetupFn
    else if k == 1 then Factory
    else if k == 2 then Config
    else if k == 3 then ReinitializerFactory
    else if k == 4 then ConnectionSlot
    else if k == 5 then Inbound
    else if k == 6 then Transport
    else Runtime
  }

  /** Position in the release order; what dispose_setup and the join take has none. */
  function Rank(r: Resource): nat {
    match r
    case SetupFn => 0
    case Factory => 1
    case Config => 2
    case ReinitializerFactory => 3
    case ConnectionSlot => 4
    case Inbound => 5
    case Transport => 6
    case Runtime => 7
    case _ => RELEASES
  }

  /** What is left of `held` after the first `k` takes of the release. */
  function LeftAfter(held: set<Resource>, k: nat): set<Resource> {
    set r | r in held && Rank(r) >= k
  }

  lemma LeftAfterTake(held: set<Resource>, k: nat)
    requires k < RELEASES
    ensures LeftAfter(held, 0) == held
    ensures LeftAfter(held, k + 1) == LeftAfter(held, k) - {ReleaseAt(k)}
  {
  }
}
