/**
 The selection of the one module controller and the admission of module calls
 (crates/tinybus/src/broker.rs). Attachments on any number of threads, ordinary
 peers and module calls interleave; unique names are minted by the router only.
 */
module ModuleController {
  import opened Wrappers

  /** `peer` is the broker-minted identity of a connection. */
  datatype Binding = Unselected | Attaching | Selected(peer: nat)

  datatype Operation = List | Get | GetManifest | Load | LoadGithub | Reinitialize | Stop | Enable | Rescan

  predicate ReadOnly(o: Operation) {
    o == List || o == Get || o == GetManifest
  }

  /** Where attach_module_controller is on one thread. */
  datatype Pc = Rest | Reserved | Attached(peer: nat) | Granted(peer: nat) | Denied

  datatype Call = Call(operation: Operation, caller: nat)

  /** `restricted` is whether the broker was built with a controller binding at all. */
  datatype State = State(
    restricted: Bit,
    binding: Binding,
    nextId: nat,
    live: set<nat>,
    threads: map<nat, Pc>,
    reserver: nat,
    admitted: seq<Call>)

  function At(s: State, t: nat): Pc {
    if t in s.threads then s.threads[t] else Rest
  }

  function Initial(restricted: Bit): State {
    State(restricted, Unselected, 0, {}, map[], 0, [])
  }

  datatype Event =
    | Select(thread: nat)            // one region of attach_module_controller
    | OrdinaryAttach
    | Detach(peer: nat)
    | ModuleCall(operation: Operation, caller: nat)

  function Move(s: State, t: nat, pc: Pc): State {
    s.(threads := s.threads[t := pc])
  }

  function Mint(s: State): State {
    s.(nextId := s.nextId + 1, live := s.live + {s.nextId + 1})
  }

  /** The admission test of module_method for a caller the router still knows. */
  predicate Admits(restricted: Bit, binding: Binding, o: Operation, caller: nat) {
    ReadOnly(o) || restricted.No? || binding == Selected(caller)
  }

  function Next(s: State, e: Event): State {
    match e
    case Select(t) =>
      (match At(s, t)
       case Rest =>
         if s.restricted.No? || s.binding != Unselected then Move(s, t, Denied)
         else Move(s.(binding := Attaching, reserver := t), t, Reserved)
       case Reserved => Move(Mint(s), t, Attached(s.nextId + 1))
       case Attached(peer) => Move(s.(binding := Selected(peer)), t, Granted(peer))
       case _ => s)
    case OrdinaryAttach => Mint(s)
    case Detach(peer) => s.(live := s.live - {peer})
    case ModuleCall(o, caller) =>
      if caller in s.live && Admits(s.restricted, s.binding, o, caller) then
        s.(admitted := s.admitted + [Call(o, caller)])
      else s
  }

  function Run(s: State, events: seq<Event>): State
    decreases |events|
  {
    if events == [] then s else Run(Next(s, events[0]), events[1..])
  }

  ghost predicate Reachable(s: State) {
    exists restricted: Bit, events: seq<Event> :: s == Run(Initial(restricted), events)
  }

  // ---------------------------------------------------------------- the invariant

  predicate ThreadFits(s: State, t: nat, pc: Pc) {
    && (pc.Reserved? || pc.Attached? ==> s.binding == Attaching && s.reserver == t)
    && (pc.Attached? ==> 0 < pc.peer <= s.nextId)
    && (pc.Granted? ==> s.binding == Selected(pc.peer) && s.reserver == t)
  }

  predicate CallFits(s: State, c: Call) {
    && c.caller <= s.nextId
    && (s.restricted.Yes? && !ReadOnly(c.operation) ==> s.binding == Selected(c.caller))
  }

  ghost predicate Valid(s: State) {
    && (forall t: nat :: ThreadFits(s, t, At(s, t)))
    && (forall i :: 0 <= i < |s.admitted| ==> CallFits(s, s.admitted[i]))
    && (forall peer :: peer in s.live ==> peer <= s.nextId)
    && (s.binding.Selected? ==> 0 < s.binding.peer <= s.nextId && At(s, s.reserver) == Granted(s.binding.peer))
    && (s.binding.Attaching? ==> At(s, s.reserver).Reserved? || At(s, s.reserver).Attached?)
    && (s.restricted.No? ==> s.binding == Unselected)
  }

  lemma NextValid(s: State, e: Event)
    requires Valid(s)
    ensures Valid(Next(s, e))
    ensures s.binding.Selected? ==> Next(s, e).binding == s.binding
    ensures Next(s, e).restricted == s.restricted
    ensures |s.admitted| <= |Next(s, e).admitted|
  {
    var s' := Next(s, e);
    assert ThreadFits(s, s.reserver, At(s, s.reserver));
    if e.Select? { assert ThreadFits(s, e.thread, At(s, e.thread)); }
    forall t: nat ensures ThreadFits(s', t, At(s', t)) {
      assert ThreadFits(s, t, At(s, t));
    }
    forall i | 0 <= i < |s'.admitted| ensures CallFits(s', s'.admitted[i]) {
      if i < |s.admitted| { assert CallFits(s, s.admitted[i]); }
    }
  }

  lemma {:induction false} RunValid(s: State, events: seq<Event>)
    requires Valid(s)
    ensures Valid(Run(s, events)) && Run(s, events).restricted == s.restricted
    ensures s.binding.Selected? ==> Run(s, events).binding == s.binding
    decreases |events|
  {
    if events != [] {
      NextValid(s, events[0]);
      RunValid(Next(s, events[0]), events[1..]);
    }
  }

  lemma ReachableValid(s: State)
    requires Reachable(s)
    ensures Valid(s)
  {
    var restricted: Bit, events: seq<Event> :| s == Run(Initial(restricted), events);
    RunValid(Initial(restricted), events);
  }

  // ---------------------------------------------------------------- what the selection promises

  /** At most one attachment ever succeeds, on every interleaving, and it names the selected peer. */
  lemma OneController(s: State, t: nat, u: nat)
    requires Reachable(s) && At(s, t).Granted?
    ensures s.restricted.Yes? && s.binding == Selected(At(s, t).peer)
    ensures At(s, u).Granted? ==> u == t
    ensures u != t ==> !At(s, u).Reserved? && !At(s, u).Attached?
  {
    ReachableValid(s);
    assert ThreadFits(s, t, At(s, t)) && ThreadFits(s, u, At(s, u));
  }

  /** The selection outlives every disconnection: it never changes again. */
  lemma SelectionIsFinal(s: State, events: seq<Event>)
    requires Reachable(s) && s.binding.Selected?
    ensures Run(s, events).binding == s.binding
  {
    ReachableValid(s);
    RunValid(s, events);
  }

  /** All mutating calls a restricted broker ever admitted came from one and the same connection. */
  lemma MutatingCallsFromController(s: State, i: nat)
    requires Reachable(s) && s.restricted.Yes? && i < |s.admitted| && !ReadOnly(s.admitted[i].operation)
    ensures s.binding == Selected(s.admitted[i].caller)
    ensures At(s, s.reserver) == Granted(s.admitted[i].caller)
  {
    ReachableValid(s);
    assert CallFits(s, s.admitted[i]);
  }

  /** Until a controller is selected a restricted broker admits no mutating call at all. */
  lemma NothingBeforeSelection(s: State, i: nat)
    requires Reachable(s) && s.restricted.Yes? && !s.binding.Selected? && i < |s.admitted|
    ensures ReadOnly(s.admitted[i].operation)
  {
    ReachableValid(s);
    assert CallFits(s, s.admitted[i]);
  }

  // ---------------------------------------------------------------- exactly the controller's calls

  function Mutating(calls: seq<Call>): seq<Call> {
    if calls == [] then []
    else
      var last := calls[|calls| - 1];
      Mutating(calls[..|calls| - 1]) + if ReadOnly(last.operation) then [] else [last]
  }

  /** The mutating calls `peer` makes in a run, until it disconnects. */
  function CallsUntilDetach(events: seq<Event>, peer: nat): seq<Call> {
    if events == [] || events[0] == Detach(peer) then []
    else CallIn(events[0], peer) + CallsUntilDetach(events[1..], peer)
  }

  function CallIn(e: Event, peer: nat): seq<Call> {
    if e.ModuleCall? && e.caller == peer && !ReadOnly(e.operation) then [Call(e.operation, peer)] else []
  }

  lemma {:induction false} NothingMutates(calls: seq<Call>)
    requires forall i :: 0 <= i < |calls| ==> ReadOnly(calls[i].operation)
    ensures Mutating(calls) == []
    decreases |calls|
  {
    if calls != [] {
      NothingMutates(calls[..|calls| - 1]);
    }
  }

  /** One event adds to the mutating calls what the selected peer calls while it is connected. */
  lemma SelectedStep(s: State, e: Event, peer: nat)
    requires Valid(s) && s.restricted.Yes? && s.binding == Selected(peer)
    ensures var next := Next(s, e);
      && (peer in next.live <==> peer in s.live && e != Detach(peer))
      && Mutating(next.admitted) == Mutating(s.admitted) + if peer in s.live then CallIn(e, peer) else []
  {
    if e.ModuleCall? && Next(s, e) != s {
      assert Next(s, e).admitted[..|s.admitted|] == s.admitted;
    }
  }

  lemma {:induction false} SelectedRun(s: State, events: seq<Event>, peer: nat)
    requires Valid(s) && s.restricted.Yes? && s.binding == Selected(peer)
    ensures Mutating(Run(s, events).admitted) ==
              Mutating(s.admitted) + if peer in s.live then CallsUntilDetach(events, peer) else []
    decreases |events|
  {
    if events != [] {
      var (e, rest) := (events[0], events[1..]);
      NextValid(s, e);
      SelectedStep(s, e, peer);
      SelectedRun(Next(s, e), rest, peer);
      var (calls, more) := (CallIn(e, peer), CallsUntilDetach(rest, peer));
      assert (Mutating(s.admitted) + calls) + more == Mutating(s.admitted) + (calls + more);
    }
  }

  /**
   The mutating calls a restricted broker ever admits are exactly those of the one
   selected peer: every call it makes from the moment of its selection until it
   disconnects, in order, none before, and none of anybody else.
   */
  lemma AdmittedAreTheControllers(before: seq<Event>, t: nat, after: seq<Event>)
    requires At(Run(Initial(Yes), before), t).Attached?
    ensures var s := Next(Run(Initial(Yes), before), Select(t));
      && s.binding.Selected?
      && Mutating(Run(s, after).admitted) ==
           if s.binding.peer in s.live then CallsUntilDetach(after, s.binding.peer) else []
  {
    var s0 := Run(Initial(Yes), before);
    RunValid(Initial(Yes), before);
    assert ThreadFits(s0, t, At(s0, t));
    forall i | 0 <= i < |s0.admitted| ensures ReadOnly(s0.admitted[i].operation) {
      assert CallFits(s0, s0.admitted[i]);
    }
    NothingMutates(s0.admitted);
    NextValid(s0, Select(t));
    SelectedRun(Next(s0, Select(t)), after, At(s0, t).peer);
  }

  /** ... and without a selection there are none. */
  lemma UnselectedAdmitNone(events: seq<Event>)
    requires !Run(Initial(Yes), events).binding.Selected?
    ensures Mutating(Run(Initial(Yes), events).admitted) == []
  {
    var s := Run(Initial(Yes), events);
    RunValid(Initial(Yes), events);
    forall i | 0 <= i < |s.admitted| ensures ReadOnly(s.admitted[i].operation) {
      assert CallFits(s, s.admitted[i]);
    }
    NothingMutates(s.admitted);
  }

  /** A selection always comes from some thread that had attached its peer, so the two cases are all runs. */
  lemma {:induction false} SelectionHappened(s: State, events: seq<Event>) returns (c: nat, t: nat)
    requires Valid(s) && !s.binding.Selected? && Run(s, events).binding.Selected?
    ensures c < |events| && events[c] == Select(t) && At(Run(s, events[..c]), t).Attached?
    decreases |events|
  {
    var next := Next(s, events[0]);
    NextValid(s, events[0]);
    if next.binding.Selected? {
      c, t := 0, events[0].thread;
    } else {
      c, t := SelectionHappened(next, events[1..]);
      assert events[..c + 1][1..] == events[1..][..c];
      c := c + 1;
    }
  }

  // ---------------------------------------------------------------- the binding in place

  /** The mutex-guarded binding shared by all clones of one broker. */
  class ControllerBinding {
    var binding: Binding

    constructor ()
      ensures binding == Unselected
    {
      binding := Unselected;
    }

    /** The first region of attach_module_controller. */
    method Reserve() returns (granted: bool)
      modifies this
      ensures granted == (old(binding) == Unselected)
      ensures binding == (if granted then Attaching else old(binding))
    {
      if binding != Unselected {
        return false;
      }
      binding := Attaching;
      return true;
    }

    /** The last region: the reservation becomes the attached connection. */
    method Commit(peer: nat)
      requires binding == Attaching
      modifies this
      ensures binding == Selected(peer)
    {
      binding := Selected(peer);
    }

    method AdmitCall(o: Operation, caller: nat) returns (admitted: bool)
      ensures admitted == Admits(Yes, binding, o, caller)
    {
      if ReadOnly(o) {
        return true;
      }
      match binding
      case Selected(peer) => return peer == caller;
      case _ => return false;
    }
  }

  /**
   A module peer reserved in the router but not yet dispatching. It is either
   started, keeping its name, or dropped, giving the name back; never both. A
   dropped peer on a module transport is also told to terminate.
   */
  class StagedModulePeer {
    var id: Option<nat>
    var transport: Bit
    var inbox: Bit
    const onModule: Bit
    ghost var started: Bit
    ghost var detached: Bit
    ghost var terminated: Bit

    ghost predicate Valid()
      reads this
    {
      && (id.Some? ==> transport.Yes? && started.No? && detached.No?)
      && (id == None ==> (started.Yes? <==> detached.No?))
      && (terminated.Yes? <==> detached.Yes? && onModule.Yes?)
    }

    constructor (id: nat, onModule: Bit)
      ensures Valid() && this.id == Some(id) && inbox.Yes? && this.onModule == onModule
      ensures started.No? && detached.No?
    {
      this.id, transport, inbox, this.onModule := Some(id), Yes, Yes, onModule;
      started, detached, terminated := No, No, No;
    }

    /**
     Spawns the tasks, then disarms the guard. A panic anywhere before that, in the
     transport's label or in a spawn, unwinds through the guard.
     */
    method Start(panics: bool) returns (unwound: bool)
      requires Valid() && id.Some? && inbox.Yes?
      modifies this
      ensures Valid() && id == None && inbox.No? && unwound == panics
      ensures started.Yes? <==> !panics
      ensures detached.Yes? <==> panics
      ensures terminated.Yes? <==> panics && onModule.Yes?
    {
      inbox := No;
      unwound := panics;
      if !panics {
        started := Yes;
        id, transport := None, No;
      }
      var detaches := Drop();
    }

    /** The guard: a peer that was never started leaves the router again, and its module is stopped. */
    method Drop() returns (detaches: bool)
      requires Valid()
      modifies this
      ensures detaches == old(id).Some?
      ensures Valid() && id == None && started == old(started) && inbox == old(inbox)
      ensures detached.Yes? <==> started.No?
      ensures terminated.Yes? <==> started.No? && onModule.Yes?
    {
      detaches := id.Some?;
      if detaches {
        detached := Yes;
        if transport.Yes? && onModule.Yes? {
          terminated := Yes;  // commit_terminal(true), then request_terminal(true)
        }
        id := None;
      }
    }
  }
}
