/**
 The terminal state in its own form: one object whose fields the lock regions of
 crates/tinybus-module/src/terminal.rs update in place. `Value` is the memory
 record the interleaving model steps through, and every method is proved to do
 to the fields what its region function does to that record.
 */
module TerminalState {
  import opened Wrappers
  import M = TerminalMemory

  /** What happens to one weak compare-and-swap between the load and the exchange. */
  datatype Attempt = Spurious | Overtaken(with: M.Cause)

  /** The reason after the causes that overtook a writer, in their order. */
  function Overtake(reason: nat, attempts: seq<Attempt>): nat {
    if attempts == [] then reason
    else
      var last := attempts[|attempts| - 1];
      var before := Overtake(reason, attempts[..|attempts| - 1]);
      if last.Spurious? then before else M.Override(before, last.with)
  }

  class TerminalState {
    var reason: nat
    var uncertain: Bit
    var anchored: Bit
    var vtablePublished: Bit
    var payloads: set<M.PayloadKind>
    var request: Bit
    var finish: Bit
    var requestState: M.RequestState
    var finishState: M.FinishState
    var published: Bit
    var completion: Option<M.Completion>
    var activeReinit: Bit
    var operation: Option<M.Operation>
    var constructionCode: int
    var priorPending: Bit
    var retirementFailed: Bit
    var held: set<M.Resource>
    var owners: nat
    var initialResult: Option<M.TaskOutcome>

    ghost function Value(): M.Memory
      reads this
    {
      M.Memory(
        reason, uncertain, anchored, vtablePublished, payloads,
        M.Control(request, finish, requestState, finishState, published, completion),
        M.ReinitCell(activeReinit, operation, constructionCode, priorPending, retirementFailed),
        M.Resources(held, owners, initialResult))
    }

    constructor ()
      ensures Value() == M.INITIAL_MEMORY
    {
      reason, uncertain, anchored, vtablePublished, payloads := 0, No, Yes, No, {};
      request, finish, requestState, finishState := No, No, M.Unregistered, M.FinishIdle;
      published, completion := No, None;
      activeReinit, operation, constructionCode, priorPending, retirementFailed := No, None, M.TB_CLOSED, No, No;
      held, owners, initialResult := {}, 0, None;
    }

    /**
     The retry loop of commit. Whatever overtakes it, the reason ends as if the
     overtaking causes had been committed first and `cause` after them.
     */
    method Commit(cause: M.Cause, attempts: seq<Attempt>) returns (used: nat)
      requires reason <= 4
      modifies this`reason
      ensures used <= |attempts| && reason <= 4
      ensures reason == M.Override(Overtake(old(reason), attempts[..used]), cause)
    {
      used := 0;
      assert attempts[..0] == [];
      var seen := reason;
      while M.MayReplace(seen, cause)
        invariant used <= |attempts| && reason <= 4
        invariant seen == reason == Overtake(old(reason), attempts[..used])
        decreases |attempts| - used
      {
        if used == |attempts| {
          reason := M.Code(cause);  // the exchange succeeds
          return;
        }
        var attempt := attempts[used];
        if attempt.Overtaken? {
          reason := M.Override(reason, attempt.with);
        }
        assert attempts[..used + 1][..used] == attempts[..used];
        seen, used := reason, used + 1;  // the failed exchange reports the current value
      }
    }

    method RecordUncertain()
      modifies this
      ensures Value() == M.RecordUncertain(old(Value()))
    {
      uncertain := Yes;
      if completion == Some(M.PhysicallyStopped) {
        completion := Some(M.Uncertain);
      }
      anchored := Yes;
    }

    method KeepPayload(kind: M.PayloadKind)
      modifies this
      ensures Value() == old(Value()).(payloads := old(payloads) + {kind})
    {
      payloads := payloads + {kind};
    }

    method Register()
      modifies this
      ensures Value() == M.Register(old(Value()))
    {
      request, finish, requestState := Yes, Yes, M.RequestIdle;
    }

    /** The admission at the head of run_request. */
    method BeginRequest() returns (due: bool)
      modifies this
      ensures due == M.RequestDue(old(Value()))
      ensures Value() == (if due then old(Value()).(ctl := old(Value()).ctl.(requestState := M.RequestRunning))
                          else old(Value()))
    {
      if reason == 0 || requestState != M.RequestIdle {
        return false;
      }
      requestState := M.RequestRunning;
      return true;
    }

    method SettleRequest(panicked: bool)
      modifies this
      ensures Value() == M.SettleRequest(old(Value()), panicked)
    {
      if panicked {
        RecordUncertain();
        requestState := M.RequestPanicked;
      } else {
        requestState := M.RequestDone;
      }
    }

    method BeginReinit() returns (admitted: bool)
      modifies this
      ensures admitted == M.ReinitAdmitted(old(Value()))
      ensures Value() == (if admitted then old(Value()).(cell := old(Value()).cell.(activeReinit := Yes))
                          else old(Value()))
    {
      if reason != 0 || activeReinit.Yes? {
        return false;
      }
      activeReinit := Yes;
      return true;
    }

    method SubmitReinit(o: M.Operation)
      modifies this
      ensures Value() == M.Submit(old(Value()), o)
    {
      operation := Some(o);
      priorPending := Yes;
    }

    /** One turn of the worker's loop: take the operation, leave, or wait. */
    method WorkerTurn() returns (taken: Option<M.Operation>, leaves: bool)
      modifies this
      ensures taken == old(operation)
      ensures leaves == (taken == None && M.WorkerMayLeave(old(Value())))
      ensures Value() ==
                (if taken.Some? then old(Value()).(cell := old(Value()).cell.(operation := None))
                 else if leaves then old(Value()).(ctl := old(Value()).ctl.(finishState := M.FinishRunning))
                 else old(Value()))
    {
      taken, leaves := operation, false;
      if operation.Some? {
        operation := None;
      } else if published.Yes? && activeReinit.No?
        && requestState != M.RequestIdle && requestState != M.RequestRunning {
        finishState, leaves := M.FinishRunning, true;
      }
    }

    method Acknowledge(failed: Bit, code: int)
      modifies this
      ensures Value() == M.Acknowledge(old(Value()), failed, code)
    {
      if failed.Yes? {
        retirementFailed := Yes;
      }
      constructionCode := code;
      priorPending := No;
    }

    /** The head of schedule: only the first caller submits the worker. */
    method BeginSchedule() returns (submits: bool)
      modifies this
      ensures submits == (old(finishState) == M.FinishIdle)
      ensures Value() == (if submits then old(Value()).(ctl := old(Value()).ctl.(finishState := M.Submitted))
                          else old(Value()))
    {
      submits := finishState == M.FinishIdle;
      if submits {
        finishState := M.Submitted;
      }
    }

    method RejectWorker()
      modifies this
      ensures Value() == M.RejectWorker(old(Value()))
    {
      RecordUncertain();
      finishState, completion := M.SpawnFailed, Some(M.Uncertain);
    }

    /** Take one capture and drop it outside the lock; its destructor may panic. */
    method TakeCapture(r: M.Resource, panicAt: Option<nat>) returns (panicked: bool)
      modifies this`held
      ensures held == old(held) - {r}
      ensures panicked == (panicAt == Some(M.CaptureRank(r)) && r in old(held))
    {
      panicked := panicAt == Some(M.CaptureRank(r)) && r in held;
      held := held - {r};
    }

    /**
     dispose_setup. If destructor `panicAt` unwinds, exactly the captures up to it
     have left; otherwise all have. The request hook is the third of them.
     */
    method DisposeSetup(panicAt: Option<nat>) returns (unwound: bool)
      modifies this`held, this`request
      ensures unwound <==>
                || (panicAt == Some(M.REQUEST_CAPTURE) && old(request).Yes?)
                || exists r :: r in old(held) && M.CaptureRank(r) < M.CAPTURES && panicAt == Some(M.CaptureRank(r))
      ensures var gone := if unwound then panicAt.value + 1 else M.CAPTURES;
              && held == M.CapturesAfter(old(held), gone)
              && request == (if gone > M.REQUEST_CAPTURE then No else old(request))
    {
      M.CapturesAfterTake(held);
      unwound := TakeCapture(M.InitialFuture, panicAt);
      if unwound {
        return;
      }
      unwound := TakeCapture(M.Callback, panicAt);
      if unwound {
        return;
      }
      unwound := panicAt == Some(M.REQUEST_CAPTURE) && request.Yes?;
      request := No;
      if unwound {
        return;
      }
      unwound := TakeCapture(M.ReinitFuture, panicAt);
    }

    /** Take one owner and drop it outside the lock; its destructor may panic. */
    method TakeOwner(k: nat, panicAt: Option<nat>) returns (panicked: bool)
      requires k < M.RELEASES
      modifies this`held
      ensures held == old(held) - {M.ReleaseAt(k)}
      ensures panicked == (panicAt == Some(k) && M.ReleaseAt(k) in old(held))
    {
      panicked := panicAt == Some(k) && M.ReleaseAt(k) in held;
      held := held - {M.ReleaseAt(k)};
    }

    /**
     release_resources. If destructor `panicAt` unwinds, exactly the owners up to
     it have left; otherwise all have, and success is the absence of SDK owners.
     */
    method ReleaseResources(panicAt: Option<nat>) returns (unwound: bool, released: bool)
      modifies this`held
      ensures unwound == (panicAt.Some? && panicAt.value < M.RELEASES && M.ReleaseAt(panicAt.value) in old(held))
      ensures unwound ==> held == M.LeftAfter(old(held), panicAt.value + 1) && !released
      ensures !unwound ==> held == M.LeftAfter(old(held), M.RELEASES) && released == (owners == 0)
    {
      var k := 0;
      M.LeftAfterTake(held, 0);
      while k < M.RELEASES
        invariant k <= M.RELEASES
        invariant held == M.LeftAfter(old(held), k)
        invariant panicAt.Some? && panicAt.value < k ==> M.ReleaseAt(panicAt.value) !in old(held)
      {
        M.LeftAfterTake(old(held), k);
        RankOfNext(k);
        unwound := TakeOwner(k, panicAt);
        if unwound {
          return true, false;
        }
        k := k + 1;
      }
      return false, owners == 0;
    }

    /** The last region of run_finish. */
    method Finalize(completed: M.Completion, failedChecks: Bit)
      modifies this
      ensures Value() == M.Finalize(old(Value()), completed, failedChecks)
      ensures completion == Some(M.PhysicallyStopped) ==> uncertain.No? && anchored.No?
    {
      if failedChecks.Yes? {
        RecordUncertain();
      }
      var outcome := if uncertain.Yes? then M.Uncertain else completed;
      if outcome == M.PhysicallyStopped {
        anchored := No;
      }
      finishState, completion := M.Complete, Some(outcome);
    }
  }

  lemma RankOfNext(k: nat)
    requires k < M.RELEASES
    ensures M.Rank(M.ReleaseAt(k)) == k
  {
  }
}
