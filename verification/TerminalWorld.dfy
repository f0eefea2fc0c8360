/**
 Registry and instances together. Every admitted State runs its own copy of the
 lifecycle protocol; the anchor each protocol speaks about is the one in its
 registry slot, moved under the same Control lock region.
 */
module TerminalWorld {
  import opened Wrappers
  import opened TerminalMemory
  import opened TerminalProtocol
  import opened TerminalInvariant
  import opened TerminalRuns
  import TerminalAnchor
  import TerminalTheorems
  import R = Registry

  /** `systems[id]` is the instance whose State is `registry.instances[id]`. */
  datatype World = World(registry: R.Registry, systems: seq<Sys>)

  datatype WorldEvent =
    | Admission
    | Lookup(token: nat)
    | Clone(id: nat)
    | Drop(id: nat)
    | ReleaseLease(id: nat)
    | Region(id: nat, thread: nat, choice: Choice)

  function Empty(): World {
    World(R.Empty(), [])
  }

  /** What a lock region of instance `id` does to its slot: nothing, take_anchor, or the re-anchoring. */
  function AnchorMove(registry: R.Registry, id: nat, before: Bit, after: Bit): R.Registry {
    if before.Yes? && after.No? then R.Next(registry, R.TakeAnchor(id))
    else if before.No? && after.Yes? then R.Next(registry, R.Reanchor(id))
    else registry
  }

  /** A region of an instance needs somebody who still holds its State. */
  predicate Held(w: World, id: nat) {
    id < |w.systems| && id < |w.registry.instances| && w.registry.instances[id].strong > 0
  }

  function NextWorld(w: World, e: WorldEvent): World {
    match e
    case Admission =>
      var registry := R.Next(w.registry, R.Admit);
      World(registry, if |registry.instances| > |w.registry.instances| then w.systems + [Init()] else w.systems)
    case Lookup(token) => w.(registry := R.Next(w.registry, R.Lookup(token)))
    case Clone(id) => w.(registry := R.Next(w.registry, R.Clone(id)))
    case Drop(id) => w.(registry := R.Next(w.registry, R.Drop(id)))
    case ReleaseLease(id) => w.(registry := R.Next(w.registry, R.ReleaseLease(id)))
    case Region(id, t, ch) =>
      if Held(w, id) then Moved(w, id, Step(w.systems[id], t, ch)) else w
  }

  /** The protocol's anchor bit is the registry's anchor. */
  ghost predicate Coupled(w: World, id: nat)
    requires id < |w.systems| && id < |w.registry.instances|
  {
    Inv(w.systems[id]) && (w.systems[id].m.anchored.Yes? <==> R.Anchored(w.registry, id))
  }

  ghost predicate WorldInv(w: World) {
    && R.Valid(w.registry)
    && |w.systems| == |w.registry.instances|
    && (forall id: nat :: id < |w.systems| ==> Coupled(w, id))
  }

  /** References and leases do not touch anchors. */
  lemma AnchorsKept(r: R.Registry, e: R.Event, id: nat)
    requires R.Valid(r) && id < |r.instances|
    requires e.Lookup? || e.Clone? || e.Drop? || e.ReleaseLease? || e.Admit?
    ensures id < |R.Next(r, e).instances|
    ensures R.Anchored(R.Next(r, e), id) <==> R.Anchored(r, id)
  {
    if e.Admit? {
      assert R.InstanceFits(r, id) && R.SlotFits(r, r.instances[id].index);
    }
  }

  lemma AdmissionInv(w: World)
    requires WorldInv(w)
    ensures WorldInv(NextWorld(w, Admission))
  {
    var w' := NextWorld(w, Admission);
    R.NextValid(w.registry, R.Admit);
    forall id: nat | id < |w'.systems| ensures Coupled(w', id) {
      if id < |w.systems| {
        assert Coupled(w, id);
        AnchorsKept(w.registry, R.Admit, id);
      } else {
        InvInit();
      }
    }
  }

  /** A region of `id` moves the anchor of `id` and of nobody else. */
  lemma MoveAnchors(r: R.Registry, id: nat, before: Bit, after: Bit, other: nat)
    requires R.Valid(r) && id < |r.instances| && r.instances[id].strong > 0 && other < |r.instances|
    requires before.Yes? <==> R.Anchored(r, id)
    ensures R.Valid(AnchorMove(r, id, before, after))
    ensures |AnchorMove(r, id, before, after).instances| == |r.instances|
    ensures R.Anchored(AnchorMove(r, id, before, after), other) <==>
              if other == id then after.Yes? else R.Anchored(r, other)
  {
    R.NextValid(r, R.TakeAnchor(id));
    R.NextValid(r, R.Reanchor(id));
    assert R.InstanceFits(r, id) && R.InstanceFits(r, other);
    R.AnchorIsOwn(r, id);
    assert R.SlotFits(r, r.instances[id].index);
    R.TokenDecodes(r.instances[id].generation, r.instances[id].index);
  }

  /** The world after instance `id` has moved to `s`. */
  function Moved(w: World, id: nat, s: Sys): World
    requires id < |w.systems|
  {
    World(AnchorMove(w.registry, id, w.systems[id].m.anchored, s.m.anchored), w.systems[id := s])
  }

  lemma MovedInv(w: World, id: nat, s: Sys)
    requires WorldInv(w) && Held(w, id) && Inv(s)
    ensures WorldInv(Moved(w, id, s))
  {
    var w' := Moved(w, id, s);
    assert Coupled(w, id);
    MoveAnchors(w.registry, id, w.systems[id].m.anchored, s.m.anchored, id);
    forall other: nat | other < |w'.systems| ensures other < |w'.registry.instances| && Coupled(w', other) {
      assert Coupled(w, other);
      MoveAnchors(w.registry, id, w.systems[id].m.anchored, s.m.anchored, other);
    }
  }

  lemma RegionInv(w: World, id: nat, t: nat, ch: Choice)
    requires WorldInv(w) && Held(w, id)
    ensures WorldInv(Moved(w, id, Step(w.systems[id], t, ch)))
  {
    assert Coupled(w, id);
    InvStep(w.systems[id], t, ch);
    MovedInv(w, id, Step(w.systems[id], t, ch));
  }

  lemma NextInv(w: World, e: WorldEvent)
    requires WorldInv(w)
    ensures WorldInv(NextWorld(w, e))
  {
    match e
    case Admission => AdmissionInv(w);
    case Region(id, t, ch) =>
      if Held(w, id) { RegionInv(w, id, t, ch); }
    case Lookup(token) => CountInv(w, R.Lookup(token));
    case Clone(id) => CountInv(w, R.Clone(id));
    case Drop(id) => CountInv(w, R.Drop(id));
    case ReleaseLease(id) => CountInv(w, R.ReleaseLease(id));
  }

  lemma CountInv(w: World, e: R.Event)
    requires WorldInv(w)
    requires e.Lookup? || e.Clone? || e.Drop? || e.ReleaseLease?
    ensures WorldInv(w.(registry := R.Next(w.registry, e)))
  {
    var w' := w.(registry := R.Next(w.registry, e));
    R.NextValid(w.registry, e);
    CountKeeps(w.registry, e);
    forall id: nat | id < |w'.systems| ensures Coupled(w', id) {
      assert Coupled(w, id);
      AnchorsKept(w.registry, e, id);
    }
  }

  lemma CountKeeps(r: R.Registry, e: R.Event)
    requires R.Valid(r) && (e.Lookup? || e.Clone? || e.Drop? || e.ReleaseLease?)
    ensures |R.Next(r, e).instances| == |r.instances|
  {
  }

  function RunWorld(w: World, events: seq<WorldEvent>): World
    decreases |events|
  {
    if events == [] then w else RunWorld(NextWorld(w, events[0]), events[1..])
  }

  ghost predicate ReachableWorld(w: World) {
    exists events: seq<WorldEvent> :: w == RunWorld(Empty(), events)
  }

  ghost predicate FollowsWorld(w: World, later: World) {
    exists events: seq<WorldEvent> :: later == RunWorld(w, events)
  }

  lemma {:induction false} RunInv(w: World, events: seq<WorldEvent>)
    requires WorldInv(w)
    ensures WorldInv(RunWorld(w, events))
    decreases |events|
  {
    if events != [] {
      NextInv(w, events[0]);
      RunInv(NextWorld(w, events[0]), events[1..]);
    }
  }

  lemma ReachableWorldInv(w: World)
    requires ReachableWorld(w)
    ensures WorldInv(w)
  {
    R.ValidEmpty();
    var events: seq<WorldEvent> :| w == RunWorld(Empty(), events);
    RunInv(Empty(), events);
  }

  /** Instances keep their token, and their doubt. */
  ghost predicate Endures(w: World, w': World, id: nat)
    requires id < |w.systems| && id < |w.registry.instances|
  {
    && id < |w'.systems| && id < |w'.registry.instances|
    && R.TokenOf(w'.registry, id) == R.TokenOf(w.registry, id)
    && (w.systems[id].m.uncertain.Yes? ==> w'.systems[id].m.uncertain.Yes?)
  }

  lemma MovedEndures(w: World, moved: nat, s: Sys, id: nat)
    requires WorldInv(w) && Held(w, moved) && id < |w.systems|
    requires w.systems[moved].m.uncertain.Yes? ==> s.m.uncertain.Yes?
    ensures Endures(w, Moved(w, moved, s), id)
  {
  }

  lemma NextEndures(w: World, e: WorldEvent, id: nat)
    requires WorldInv(w) && id < |w.systems|
    ensures Endures(w, NextWorld(w, e), id)
  {
    match e
    case Region(other, t, ch) =>
      if Held(w, other) {
        assert Coupled(w, other);
        TerminalTheorems.StepPersists(w.systems[other], t, ch);
        MovedEndures(w, other, Step(w.systems[other], t, ch), id);
      }
    case _ =>
  }

  lemma {:induction false} RunEndures(w: World, events: seq<WorldEvent>, id: nat)
    requires WorldInv(w) && id < |w.systems|
    ensures Endures(w, RunWorld(w, events), id)
    decreases |events|
  {
    if events != [] {
      NextInv(w, events[0]);
      NextEndures(w, events[0], id);
      RunEndures(NextWorld(w, events[0]), events[1..], id);
    }
  }

  /**
   A shutdown that answered TB_PANICKED leaves a State that can always be found
   again: in every later state its token resolves to that same State.
   */
  lemma PanickedTokenResolves(w: World, later: World, id: nat, t: nat)
    requires ReachableWorld(w) && FollowsWorld(w, later) && id < |w.systems|
    requires At(w.systems[id], t).main == HReturn(TB_PANICKED)
    ensures R.Resolve(later.registry, R.TokenOf(w.registry, id)) == Some(id)
  {
    ReachableWorldInv(w);
    assert Coupled(w, id);
    assert Locals(w.systems[id].m, w.systems[id].h, t, At(w.systems[id], t), t in w.systems[id].parked);
    DoubtIsMarked(w.systems[id], t);
    UncertainTokenResolves(w, later, id);
  }

  lemma DoubtIsMarked(s: Sys, t: nat)
    requires Inv(s) && At(s, t).main == HReturn(TB_PANICKED)
    ensures s.m.uncertain.Yes?
  {
    assert Locals(s.m, s.h, t, At(s, t), t in s.parked);
    assert TerminalAnchor.AnchorLocal(s.m, s.h, t, At(s, t));
  }

  /** The same for every recorded uncertainty. */
  lemma UncertainTokenResolves(w: World, later: World, id: nat)
    requires WorldInv(w) && FollowsWorld(w, later) && id < |w.systems| && w.systems[id].m.uncertain.Yes?
    ensures R.Resolve(later.registry, R.TokenOf(w.registry, id)) == Some(id)
  {
    var events: seq<WorldEvent> :| later == RunWorld(w, events);
    RunInv(w, events);
    RunEndures(w, events, id);
    assert Coupled(later, id);
    assert TerminalAnchor.AnchorGlobal(later.systems[id].m, later.systems[id].h);
    R.ResolvesWhenValid(later.registry, R.TokenOf(w.registry, id), id);
  }

  /** While a physical stop is published, the token resolves to nothing. */
  lemma StoppedTokenDenied(w: World, id: nat)
    requires ReachableWorld(w) && id < |w.systems|
    requires w.systems[id].m.ctl.completion == Some(PhysicallyStopped)
    ensures R.Resolve(w.registry, R.TokenOf(w.registry, id)) == None
  {
    ReachableWorldInv(w);
    assert Coupled(w, id);
    assert TerminalAnchor.AnchorGlobal(w.systems[id].m, w.systems[id].h);
    R.UnanchoredDenied(w.registry, id);
  }
}
