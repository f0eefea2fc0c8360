/**
 The bounded registry of terminal instances: 256 slots that mint
 generation-tagged tokens, anchor a State while it may still be needed, and
 stay reserved until the State's very last reference is gone
 (crates/tinybus-module/src/terminal.rs).
 */
module Registry {
  import opened Wrappers

  const INSTANCE_LIMIT: nat := 256

  /** usize::MAX >> 8 on a 64-bit target. */
  const MAX_GENERATION: nat := 0x00FF_FFFF_FFFF_FFFF

  /** `anchor` is the identity of the anchored State. */
  datatype Slot = Slot(reserved: bool, exhausted: bool, generation: nat, anchor: Option<nat>)

  const FREE_SLOT := Slot(false, false, 0, None)

  type Slots = slots: seq<Slot> | |slots| == INSTANCE_LIMIT witness seq(INSTANCE_LIMIT, _ => FREE_SLOT)

  type Index = i: nat | i < INSTANCE_LIMIT

  // ---------------------------------------------------------------- tokens

  function Token(generation: nat, index: nat): nat {
    generation * INSTANCE_LIMIT + index
  }

  function GenerationOf(token: nat): nat {
    token / INSTANCE_LIMIT
  }

  function IndexOf(token: nat): nat {
    token % INSTANCE_LIMIT
  }

  /** A token decodes to its parts and fits in 64 bits. */
  lemma TokenDecodes(generation: nat, index: nat)
    requires generation <= MAX_GENERATION && index < INSTANCE_LIMIT
    ensures GenerationOf(Token(generation, index)) == generation
    ensures IndexOf(Token(generation, index)) == index
    ensures Token(generation, index) < 0x1_0000_0000_0000_0000
  {
  }

  /** The same in the machine's terms: shift and mask recover what shift and or packed. */
  lemma TokenBits(generation: bv64, index: bv64)
    requires generation <= 0x00FF_FFFF_FFFF_FFFF && index <= 0xFF
    ensures ((generation << 8) | index) >> 8 == generation
    ensures ((generation << 8) | index) & 0xFF == index
  {
  }

  // ---------------------------------------------------------------- the scan of admit_in

  /** A slot the scan passes by: taken, exhausted already, or exhausted by this attempt. */
  predicate Unusable(slot: Slot) {
    slot.reserved || slot.exhausted || slot.generation + 1 > MAX_GENERATION
  }

  /** What the scan leaves of a slot it passed by. */
  function Passed(slot: Slot): Slot {
    if slot.reserved || slot.exhausted then slot else slot.(exhausted := true)
  }

  /** The first usable slot at or after `i`, if any. */
  function FirstUsable(slots: seq<Slot>, i: nat): (k: nat)
    requires i <= |slots|
    ensures i <= k <= |slots|
    ensures k < |slots| ==> !Unusable(slots[k])
    ensures forall j :: i <= j < k ==> Unusable(slots[j])
    decreases |slots| - i
  {
    if i == |slots| || !Unusable(slots[i]) then i else FirstUsable(slots, i + 1)
  }

  /** The slots after the scan: every slot passed by is settled, the chosen one is taken by `id`. */
  function Admitted(slots: seq<Slot>, id: nat): (after: seq<Slot>)
    ensures |after| == |slots|
  {
    var k := FirstUsable(slots, 0);
    seq(|slots|, i requires 0 <= i < |slots| =>
      if i < k then Passed(slots[i])
      else if i == k then Slot(true, slots[i].exhausted, slots[i].generation + 1, Some(id))
      else slots[i])
  }

  function AdmittedToken(slots: seq<Slot>): Option<nat> {
    var k := FirstUsable(slots, 0);
    if k == |slots| then None else Some(Token(slots[k].generation + 1, k))
  }

  /** lookup_in, with the token recorded in the anchored State as `tokenOf`. */
  function Found(slots: Slots, tokenOf: nat -> nat, token: nat): Option<nat> {
    var slot := slots[IndexOf(token)];
    if GenerationOf(token) == 0 || slot.generation != GenerationOf(token) then None
    else if slot.anchor.Some? && tokenOf(slot.anchor.value) == token then slot.anchor
    else None
  }

  /** The registry in place: the array of slots the instances share under one lock. */
  class Admission {
    const slots: array<Slot>

    constructor ()
      ensures fresh(slots) && slots.Length == INSTANCE_LIMIT
      ensures forall i :: 0 <= i < INSTANCE_LIMIT ==> slots[i] == FREE_SLOT
    {
      slots := new Slot[INSTANCE_LIMIT](_ => FREE_SLOT);
    }

    method AdmitIn(id: nat) returns (token: Option<nat>)
      requires slots.Length == INSTANCE_LIMIT
      modifies slots
      ensures token == AdmittedToken(old(slots[..]))
      ensures slots[..] == Admitted(old(slots[..]), id)
    {
      var i := 0;
      ghost var before := slots[..];
      while i < slots.Length
        invariant i <= slots.Length
        invariant FirstUsable(before, 0) == FirstUsable(before, i)
        invariant forall j :: 0 <= j < i ==> slots[j] == Passed(before[j])
        invariant forall j :: i <= j < slots.Length ==> slots[j] == before[j]
      {
        var slot := slots[i];
        if !slot.reserved && !slot.exhausted {
          var generation := slot.generation + 1;
          if generation <= MAX_GENERATION {
            slots[i] := Slot(true, slot.exhausted, generation, Some(id));
            assert FirstUsable(before, 0) == i;
            assert slots[..] == Admitted(before, id);
            return Some(Token(generation, i));
          }
          slots[i] := slot.(exhausted := true);
        }
        i := i + 1;
      }
      assert slots[..] == Admitted(before, id);
      return None;
    }

    method LookupIn(token: nat, tokenOf: nat -> nat) returns (found: Option<nat>)
      requires slots.Length == INSTANCE_LIMIT
      ensures found == Found(slots[..], tokenOf, token)
    {
      if GenerationOf(token) == 0 {
        return None;
      }
      var slot := slots[IndexOf(token)];
      if slot.generation != GenerationOf(token) {
        return None;
      }
      if slot.anchor.Some? && tokenOf(slot.anchor.value) == token {
        return slot.anchor;
      }
      return None;
    }

    method TakeAnchor(index: nat) returns (taken: Option<nat>)
      requires index < slots.Length
      modifies slots
      ensures taken == old(slots[index].anchor)
      ensures slots[..] == old(slots[..])[index := old(slots[index]).(anchor := None)]
    {
      taken := slots[index].anchor;
      slots[index] := slots[index].(anchor := None);
    }

    /** The registry half of record_uncertain_locked. */
    method Reanchor(index: nat, token: nat, id: nat)
      requires index < slots.Length
      modifies slots
      ensures slots[..] == old(slots[..])[index := Reanchored(old(slots[index]), token, id)]
    {
      var slot := slots[index];
      if slot.generation == GenerationOf(token) && slot.anchor == None {
        slots[index] := slot.(anchor := Some(id));
      }
    }

    /** SlotLease::drop. */
    method ReleaseLease(index: nat)
      requires index < slots.Length
      modifies slots
      ensures slots[..] == old(slots[..])[index := old(slots[index]).(reserved := false)]
    {
      slots[index] := slots[index].(reserved := false);
    }
  }

  function Reanchored(slot: Slot, token: nat, id: nat): Slot {
    if slot.generation == GenerationOf(token) && slot.anchor == None then slot.(anchor := Some(id)) else slot
  }

  // ---------------------------------------------------------------- runs

  /** One State ever admitted: where it lives, its strong references outside the registry, its lease. */
  datatype Instance = Instance(index: Index, generation: nat, strong: nat, leased: bool)

  /** States are named by the order of their admission. */
  datatype Registry = Registry(slots: Slots, instances: seq<Instance>)

  datatype Event =
    | Admit
    | Lookup(token: nat)
    | Clone(id: nat)
    | Drop(id: nat)
    | TakeAnchor(id: nat)
    | Reanchor(id: nat)
    | ReleaseLease(id: nat)

  function Empty(): Registry {
    Registry(seq(INSTANCE_LIMIT, _ => FREE_SLOT), [])
  }

  function TokenOf(r: Registry, id: nat): nat {
    if id < |r.instances| then Token(r.instances[id].generation, r.instances[id].index) else 0
  }

  predicate Anchored(r: Registry, id: nat)
    requires id < |r.instances|
  {
    r.slots[r.instances[id].index].anchor == Some(id)
  }

  /** lookup of a token in this registry. */
  function Resolve(r: Registry, token: nat): Option<nat> {
    Found(r.slots, id => TokenOf(r, id), token)
  }

  function WithStrong(r: Registry, id: nat, strong: nat): Registry
    requires id < |r.instances|
  {
    r.(instances := r.instances[id := r.instances[id].(strong := strong)])
  }

  function WithSlot(r: Registry, i: Index, slot: Slot): Registry {
    r.(slots := r.slots[i := slot])
  }

  /** A reference is needed to act on a State; an event nobody can cause changes nothing. */
  function Next(r: Registry, e: Event): Registry {
    match e
    case Admit =>
      var k := FirstUsable(r.slots, 0);
      var slots := Admitted(r.slots, |r.instances|);
      if k == |r.slots| then r.(slots := slots)
      else Registry(slots, r.instances + [Instance(k, r.slots[k].generation + 1, 1, true)])
    case Lookup(token) =>
      var found := Resolve(r, token);
      if found.Some? && found.value < |r.instances| then WithStrong(r, found.value, r.instances[found.value].strong + 1)
      else r
    case Clone(id) =>
      if id < |r.instances| && r.instances[id].strong > 0 then WithStrong(r, id, r.instances[id].strong + 1) else r
    case Drop(id) =>
      if id < |r.instances| && r.instances[id].strong > 0 then WithStrong(r, id, r.instances[id].strong - 1) else r
    case TakeAnchor(id) =>
      // the anchor's reference moves to the caller, who drops it later
      if id < |r.instances| && r.instances[id].strong > 0 then
        var i := r.instances[id].index;
        var taken := r.slots[i].anchor;
        var after := WithSlot(r, i, r.slots[i].(anchor := None));
        if taken.Some? && taken.value < |r.instances| then
          WithStrong(after, taken.value, r.instances[taken.value].strong + 1)
        else after
      else r
    case Reanchor(id) =>
      if id < |r.instances| && r.instances[id].strong > 0 then
        var i := r.instances[id].index;
        WithSlot(r, i, Reanchored(r.slots[i], TokenOf(r, id), id))
      else r
    case ReleaseLease(id) =>
      // runs when the last reference is gone
      if id < |r.instances| && Dead(r, id) && r.instances[id].leased then
        var i := r.instances[id].index;
        WithSlot(r.(instances := r.instances[id := r.instances[id].(leased := false)]), i,
                 r.slots[i].(reserved := false))
      else r
  }

  /** No reference is left, inside or outside the registry. */
  predicate Dead(r: Registry, id: nat)
    requires id < |r.instances|
  {
    r.instances[id].strong == 0 && !Anchored(r, id)
  }

  predicate SlotFits(r: Registry, i: Index) {
    && r.slots[i].generation <= MAX_GENERATION
    && (r.slots[i].anchor.Some? ==>
          && r.slots[i].anchor.value < |r.instances|
          && r.instances[r.slots[i].anchor.value].index == i
          && r.instances[r.slots[i].anchor.value].leased)
    && (r.slots[i].exhausted ==> !r.slots[i].reserved)
  }

  predicate InstanceFits(r: Registry, id: nat)
    requires id < |r.instances|
  {
    var x := r.instances[id];
    && 0 < x.generation <= r.slots[x.index].generation
    && (x.leased ==> r.slots[x.index].reserved && r.slots[x.index].generation == x.generation)
    && (x.strong > 0 ==> x.leased)
  }

  /** Later admissions into a slot carry larger generations; a reserved slot has its lessee. */
  ghost predicate Valid(r: Registry) {
    && (forall i: Index :: SlotFits(r, i))
    && (forall id: nat :: id < |r.instances| ==> InstanceFits(r, id))
    && (forall id: nat, id': nat :: id < id' < |r.instances| && r.instances[id].index == r.instances[id'].index ==>
          r.instances[id].generation < r.instances[id'].generation)
    && (forall i: Index :: r.slots[i].reserved ==> Leased(r, i))
  }

  /** Some State holds the lease of slot `i`. */
  ghost predicate Leased(r: Registry, i: Index) {
    exists id: nat :: HoldsSlot(r, id, i)
  }

  predicate HoldsSlot(r: Registry, id: nat, i: Index) {
    id < |r.instances| && r.instances[id].leased && r.instances[id].index == i
  }

  /** Two leases on one slot are one lease. */
  lemma LeaseUnique(r: Registry, id: nat, id': nat)
    requires Valid(r) && id < |r.instances| && id' < |r.instances|
    requires r.instances[id].leased && r.instances[id'].leased && r.instances[id].index == r.instances[id'].index
    ensures id == id'
  {
    assert InstanceFits(r, id) && InstanceFits(r, id');
  }

  lemma ValidEmpty()
    ensures Valid(Empty())
  {
  }

  lemma AdmitValid(r: Registry)
    requires Valid(r)
    ensures Valid(Next(r, Admit))
  {
    var r' := Next(r, Admit);
    var k := FirstUsable(r.slots, 0);
    forall i: Index ensures SlotFits(r', i) {
      assert SlotFits(r, i);
    }
    forall id: nat | id < |r'.instances| ensures InstanceFits(r', id) {
      if id < |r.instances| { assert InstanceFits(r, id); }
    }
    forall i: Index | r'.slots[i].reserved ensures Leased(r', i) {
      if i == k {
        assert HoldsSlot(r', |r.instances|, i);
      } else {
        assert Leased(r, i);
        var id: nat :| HoldsSlot(r, id, i);
        assert HoldsSlot(r', id, i);
      }
    }
    forall id: nat, id': nat | id < id' < |r'.instances| && r'.instances[id].index == r'.instances[id'].index
      ensures r'.instances[id].generation < r'.instances[id'].generation
    {
      assert InstanceFits(r, id);
    }
  }

  lemma ReleaseValid(r: Registry, id: nat)
    requires Valid(r)
    ensures Valid(Next(r, ReleaseLease(id)))
  {
    var r' := Next(r, ReleaseLease(id));
    if r' != r {
      assert InstanceFits(r, id);
      var x := r.instances[id];
      forall i: Index ensures SlotFits(r', i) {
        assert SlotFits(r, i);
        if i == x.index && r.slots[i].anchor.Some? {
          LeaseUnique(r, id, r.slots[i].anchor.value);
        }
      }
      forall j: nat | j < |r'.instances| ensures InstanceFits(r', j) {
        assert InstanceFits(r, j);
        if j != id && r.instances[j].leased && r.instances[j].index == x.index {
          LeaseUnique(r, id, j);
        }
      }
      forall i: Index | r'.slots[i].reserved ensures Leased(r', i) {
        assert Leased(r, i);
        var j: nat :| HoldsSlot(r, j, i);
        assert HoldsSlot(r', j, i);
      }
    }
  }

  /** Reference counting leaves leases and slots alone; an anchor only ever names the lessee. */
  lemma SameLeasesValid(r: Registry, r': Registry)
    requires Valid(r) && |r'.instances| == |r.instances|
    requires forall i: Index :: SlotFits(r', i) && SameSlot(r.slots[i], r'.slots[i])
    requires forall id: nat :: id < |r.instances| ==> SameInstance(r, id, r'.instances[id])
    ensures Valid(r')
  {
    forall id: nat | id < |r'.instances| ensures InstanceFits(r', id) {
      assert InstanceFits(r, id) && SameInstance(r, id, r'.instances[id]);
      assert SameSlot(r.slots[r.instances[id].index], r'.slots[r.instances[id].index]);
    }
    forall i: Index | r'.slots[i].reserved ensures Leased(r', i) {
      assert SameSlot(r.slots[i], r'.slots[i]) && Leased(r, i);
      var j: nat :| HoldsSlot(r, j, i);
      assert SameInstance(r, j, r'.instances[j]);
      assert HoldsSlot(r', j, i);
    }
    forall id: nat, id': nat | id < id' < |r'.instances| && r'.instances[id].index == r'.instances[id'].index
      ensures r'.instances[id].generation < r'.instances[id'].generation
    {
      assert SameInstance(r, id, r'.instances[id]) && SameInstance(r, id', r'.instances[id']);
    }
  }

  predicate SameSlot(slot: Slot, slot': Slot) {
    slot'.reserved == slot.reserved && slot'.exhausted == slot.exhausted && slot'.generation == slot.generation
  }

  predicate SameInstance(r: Registry, id: nat, x: Instance)
    requires id < |r.instances|
  {
    var y := r.instances[id];
    x.index == y.index && x.generation == y.generation && x.leased == y.leased && (x.strong > 0 ==> y.leased)
  }

  lemma CountValid(r: Registry, id: nat, strong: nat)
    requires Valid(r) && id < |r.instances| && r.instances[id].leased
    ensures Valid(WithStrong(r, id, strong))
  {
    var r' := WithStrong(r, id, strong);
    forall i: Index ensures SlotFits(r', i) && SameSlot(r.slots[i], r'.slots[i]) {
      assert SlotFits(r, i);
    }
    forall j: nat | j < |r.instances| ensures SameInstance(r, j, r'.instances[j]) {
      assert InstanceFits(r, j);
    }
    SameLeasesValid(r, r');
  }

  lemma AnchorValid(r: Registry, id: nat, anchor: Option<nat>)
    requires Valid(r) && id < |r.instances| && r.instances[id].leased
    requires anchor == None || anchor == Some(id)
    ensures Valid(WithSlot(r, r.instances[id].index, r.slots[r.instances[id].index].(anchor := anchor)))
  {
    var k := r.instances[id].index;
    var r' := WithSlot(r, k, r.slots[k].(anchor := anchor));
    forall i: Index ensures SlotFits(r', i) && SameSlot(r.slots[i], r'.slots[i]) {
      assert SlotFits(r, i);
    }
    forall j: nat | j < |r.instances| ensures SameInstance(r, j, r'.instances[j]) {
      assert InstanceFits(r, j);
    }
    SameLeasesValid(r, r');
  }

  /** The anchor a State's holder finds in its slot is that State or nothing. */
  lemma AnchorIsOwn(r: Registry, id: nat)
    requires Valid(r) && id < |r.instances| && r.instances[id].leased
    ensures r.slots[r.instances[id].index].anchor == None || Anchored(r, id)
  {
    assert InstanceFits(r, id);
    var i := r.instances[id].index;
    assert SlotFits(r, i);
    if r.slots[i].anchor.Some? { LeaseUnique(r, id, r.slots[i].anchor.value); }
  }

  lemma NextValid(r: Registry, e: Event)
    requires Valid(r)
    ensures Valid(Next(r, e))
  {
    match e
    case Admit => AdmitValid(r);
    case Lookup(token) =>
      var found := Resolve(r, token);
      if found.Some? {
        assert SlotFits(r, IndexOf(token));
        CountValid(r, found.value, r.instances[found.value].strong + 1);
      }
    case Clone(id) =>
      if id < |r.instances| && r.instances[id].strong > 0 {
        assert InstanceFits(r, id);
        CountValid(r, id, r.instances[id].strong + 1);
      }
    case Drop(id) =>
      if id < |r.instances| && r.instances[id].strong > 0 {
        assert InstanceFits(r, id);
        CountValid(r, id, r.instances[id].strong - 1);
      }
    case TakeAnchor(id) => if id < |r.instances| && r.instances[id].strong > 0 { TakeValid(r, id); }
    case Reanchor(id) => if id < |r.instances| && r.instances[id].strong > 0 { ReanchorValid(r, id); }
    case ReleaseLease(id) => ReleaseValid(r, id);
  }

  lemma TakeValid(r: Registry, id: nat)
    requires Valid(r) && id < |r.instances| && r.instances[id].strong > 0
    ensures Valid(Next(r, TakeAnchor(id)))
  {
    assert InstanceFits(r, id);
    AnchorIsOwn(r, id);
    AnchorValid(r, id, None);
    var i := r.instances[id].index;
    var after := WithSlot(r, i, r.slots[i].(anchor := None));
    if r.slots[i].anchor.Some? { CountValid(after, id, r.instances[id].strong + 1); }
  }

  lemma ReanchorValid(r: Registry, id: nat)
    requires Valid(r) && id < |r.instances| && r.instances[id].strong > 0
    ensures Valid(Next(r, Reanchor(id)))
  {
    assert InstanceFits(r, id);
    AnchorIsOwn(r, id);
    AnchorValid(r, id, Some(id));
    var i := r.instances[id].index;
    assert r.slots[i := r.slots[i]] == r.slots;
    assert r.slots[i].(anchor := r.slots[i].anchor) == r.slots[i];
  }

  function Run(r: Registry, events: seq<Event>): Registry
    decreases |events|
  {
    if events == [] then r else Run(Next(r, events[0]), events[1..])
  }

  ghost predicate Reachable(r: Registry) {
    exists events: seq<Event> :: r == Run(Empty(), events)
  }

  ghost predicate Follows(r: Registry, later: Registry) {
    exists events: seq<Event> :: later == Run(r, events)
  }

  lemma {:induction false} RunValid(r: Registry, events: seq<Event>)
    requires Valid(r)
    ensures Valid(Run(r, events))
    decreases |events|
  {
    if events != [] {
      NextValid(r, events[0]);
      RunValid(Next(r, events[0]), events[1..]);
    }
  }

  lemma ReachableValid(r: Registry)
    requires Reachable(r)
    ensures Valid(r)
  {
    ValidEmpty();
    var events: seq<Event> :| r == Run(Empty(), events);
    RunValid(Empty(), events);
  }

  // ---------------------------------------------------------------- what the registry promises

  /** No two States ever admitted share a token. */
  lemma TokensUnique(r: Registry, id: nat, id': nat)
    requires Reachable(r) && id < id' < |r.instances|
    ensures TokenOf(r, id) != TokenOf(r, id')
  {
    ReachableValid(r);
    TokensDiffer(r, id, id');
  }

  lemma TokensDiffer(r: Registry, id: nat, id': nat)
    requires Valid(r) && id < id' < |r.instances|
    ensures TokenOf(r, id) != TokenOf(r, id')
  {
    assert InstanceFits(r, id) && InstanceFits(r, id');
    assert SlotFits(r, r.instances[id].index) && SlotFits(r, r.instances[id'].index);
    TokenDecodes(r.instances[id].generation, r.instances[id].index);
    TokenDecodes(r.instances[id'].generation, r.instances[id'].index);
  }

  /**
   A token resolves to State `id` exactly when it is the token minted for `id`
   and `id` is anchored; the recorded-token comparison of the lookup never decides.
   */
  lemma ResolvesToMinted(r: Registry, token: nat, id: nat)
    requires Reachable(r) && id < |r.instances|
    ensures Resolve(r, token) == Some(id) <==> token == TokenOf(r, id) && Anchored(r, id)
  {
    ReachableValid(r);
    ResolvesWhenValid(r, token, id);
  }

  lemma ResolvesWhenValid(r: Registry, token: nat, id: nat)
    requires Valid(r) && id < |r.instances|
    ensures Resolve(r, token) == Some(id) <==> token == TokenOf(r, id) && Anchored(r, id)
  {
    assert InstanceFits(r, id);
    var x := r.instances[id];
    assert SlotFits(r, x.index);
    TokenDecodes(x.generation, x.index);
    if token == TokenOf(r, id) && Anchored(r, id) {
      assert IndexOf(token) == x.index && GenerationOf(token) == x.generation;
    }
    if Resolve(r, token) == Some(id) {
      assert SlotFits(r, IndexOf(token));
    }
  }

  /** The token of a State that lost its anchor resolves to nothing at all. */
  lemma UnanchoredDenied(r: Registry, id: nat)
    requires Valid(r) && id < |r.instances|
    ensures Resolve(r, TokenOf(r, id)) == None <==> !Anchored(r, id)
  {
    var token := TokenOf(r, id);
    ResolvesWhenValid(r, token, id);
    if Resolve(r, token).Some? {
      var other := Resolve(r, token).value;
      assert SlotFits(r, IndexOf(token));
      ResolvesWhenValid(r, token, other);
      if other < id {
        TokensDiffer(r, other, id);
      } else if id < other {
        TokensDiffer(r, id, other);
      }
    }
  }

  /** A generation match alone already identifies the State: the slot's anchor has the looked-up token. */
  lemma TokenFilterRedundant(r: Registry, token: nat)
    requires Reachable(r)
    requires r.slots[IndexOf(token)].generation == GenerationOf(token) && r.slots[IndexOf(token)].anchor.Some?
    ensures TokenOf(r, r.slots[IndexOf(token)].anchor.value) == token
  {
    ReachableValid(r);
    assert SlotFits(r, IndexOf(token));
    assert InstanceFits(r, r.slots[IndexOf(token)].anchor.value);
  }

  /** A slot is reserved exactly while one State holds its lease. */
  lemma ReservedIffLeased(r: Registry, i: Index)
    requires Reachable(r)
    ensures r.slots[i].reserved <==> Leased(r, i)
    ensures forall id: nat, id': nat :: HoldsSlot(r, id, i) && HoldsSlot(r, id', i) ==> id == id'
  {
    ReachableValid(r);
    if Leased(r, i) {
      var id: nat :| HoldsSlot(r, id, i);
      assert InstanceFits(r, id);
    }
    forall id: nat, id': nat | HoldsSlot(r, id, i) && HoldsSlot(r, id', i) ensures id == id'
    {
      LeaseUnique(r, id, id');
    }
  }

  /** The States that hold a lease on one of the first `n` slots. */
  function Lessees(r: Registry, n: nat): set<nat> {
    set id: nat | id < |r.instances| && r.instances[id].leased && r.instances[id].index < n :: id
  }

  lemma {:induction false} LesseesBound(r: Registry, n: nat)
    requires Valid(r) && n <= INSTANCE_LIMIT
    ensures |Lessees(r, n)| <= n
  {
    if n == 0 {
      assert Lessees(r, 0) == {};
    } else {
      LesseesBound(r, n - 1);
      OneMoreLessee(r, n - 1);
    }
  }

  lemma OneMoreLessee(r: Registry, i: Index)
    requires Valid(r)
    ensures |Lessees(r, i + 1)| <= |Lessees(r, i)| + 1
  {
    if id :| id in Lessees(r, i + 1) && id !in Lessees(r, i) {
      forall id' | id' in Lessees(r, i + 1) && id' !in Lessees(r, i) ensures id' == id {
        LeaseUnique(r, id, id');
      }
      assert Lessees(r, i + 1) == Lessees(r, i) + {id};
    } else {
      assert Lessees(r, i + 1) == Lessees(r, i);
    }
  }

  /** At most 256 States hold a permit in any reachable state. */
  lemma PermitsBounded(r: Registry)
    requires Reachable(r)
    ensures |Lessees(r, INSTANCE_LIMIT)| <= INSTANCE_LIMIT
    ensures forall id: nat :: id < |r.instances| && !Dead(r, id) ==> id in Lessees(r, INSTANCE_LIMIT)
  {
    ReachableValid(r);
    LesseesBound(r, INSTANCE_LIMIT);
    forall id: nat | id < |r.instances| && !Dead(r, id) ensures id in Lessees(r, INSTANCE_LIMIT) {
      assert InstanceFits(r, id) && SlotFits(r, r.instances[id].index);
    }
  }

  /** A State that is still referenced keeps its slot, and no replacement lives there. */
  lemma HolderKeepsPermit(r: Registry, id: nat)
    requires Reachable(r) && id < |r.instances| && !Dead(r, id)
    ensures r.slots[r.instances[id].index].reserved
    ensures r.slots[r.instances[id].index].generation == r.instances[id].generation
    ensures r.slots[r.instances[id].index].anchor == None || Anchored(r, id)
  {
    ReachableValid(r);
    assert InstanceFits(r, id) && SlotFits(r, r.instances[id].index);
    AnchorIsOwn(r, id);
  }

  /** Only the end of a dead State's lease returns a permit. */
  lemma PermitReturnsAtLastDrop(r: Registry, e: Event, i: Index)
    requires Reachable(r) && r.slots[i].reserved && !Next(r, e).slots[i].reserved
    ensures e.ReleaseLease? && e.id < |r.instances| && Dead(r, e.id) && r.instances[e.id].index == i
  {
    ReachableValid(r);
  }

  /** While a State is held, an uncertain record always finds or restores exactly its own anchor. */
  lemma ReanchorRestores(r: Registry, id: nat)
    requires Reachable(r) && id < |r.instances| && r.instances[id].strong > 0
    ensures Anchored(Next(r, Reanchor(id)), id)
    ensures Resolve(Next(r, Reanchor(id)), TokenOf(r, id)) == Some(id)
  {
    ReachableValid(r);
    assert InstanceFits(r, id);
    var x := r.instances[id];
    AnchorIsOwn(r, id);
    assert SlotFits(r, x.index);
    TokenDecodes(x.generation, x.index);
  }

  // ---------------------------------------------------------------- from one state to a later one

  /** Generations only grow, exhaustion is final, a dead State stays dead, identities never change. */
  ghost predicate Persists(r: Registry, r': Registry) {
    && |r.instances| <= |r'.instances|
    && (forall i: Index :: r.slots[i].generation <= r'.slots[i].generation)
    && (forall i: Index :: r.slots[i].exhausted ==>
          r'.slots[i].exhausted && r'.slots[i].generation == r.slots[i].generation)
    && (forall id: nat :: id < |r.instances| ==> Remains(r, r', id))
  }

  predicate Remains(r: Registry, r': Registry, id: nat)
    requires id < |r.instances| <= |r'.instances|
  {
    && r'.instances[id].index == r.instances[id].index
    && r'.instances[id].generation == r.instances[id].generation
    && (Dead(r, id) ==> Dead(r', id))
  }

  lemma DeadStays(r: Registry, e: Event, id: nat)
    requires Valid(r) && id < |r.instances| && Dead(r, id)
    ensures id < |Next(r, e).instances| && Dead(Next(r, e), id)
  {
    assert InstanceFits(r, id);
    match e
    case Admit => assert SlotFits(r, r.instances[id].index);
    case Lookup(token) => assert SlotFits(r, IndexOf(token));
    case TakeAnchor(holder) =>
      if holder < |r.instances| { assert SlotFits(r, r.instances[holder].index); }
    case Reanchor(holder) =>
      if holder < |r.instances| { assert InstanceFits(r, holder); }
    case _ =>
  }

  lemma NextPersists(r: Registry, e: Event)
    requires Valid(r)
    ensures Persists(r, Next(r, e))
  {
    var r' := Next(r, e);
    forall i: Index | r.slots[i].exhausted
      ensures r'.slots[i].exhausted && r'.slots[i].generation == r.slots[i].generation
    {
      assert SlotFits(r, i);
    }
    forall id: nat | id < |r.instances| ensures Remains(r, r', id) {
      if Dead(r, id) { DeadStays(r, e, id); }
    }
  }

  lemma {:induction false} RunPersists(r: Registry, events: seq<Event>)
    requires Valid(r)
    ensures Persists(r, Run(r, events))
    decreases |events|
  {
    if events != [] {
      var next := Next(r, events[0]);
      NextValid(r, events[0]);
      NextPersists(r, events[0]);
      RunPersists(next, events[1..]);
      PersistsTransitive(r, next, Run(r, events));
    }
  }

  lemma PersistsTransitive(a: Registry, b: Registry, c: Registry)
    requires Persists(a, b) && Persists(b, c)
    ensures Persists(a, c)
  {
    forall id: nat | id < |a.instances| ensures Remains(a, c, id) {
      assert Remains(a, b, id) && Remains(b, c, id);
    }
  }

  /** The token of a State whose last reference is gone never resolves again, whoever takes its slot. */
  lemma DeadTokenNeverResolves(r: Registry, later: Registry, id: nat)
    requires Reachable(r) && Reachable(later) && Follows(r, later)
    requires id < |r.instances| && Dead(r, id)
    ensures Resolve(later, TokenOf(r, id)) == None
  {
    ReachableValid(r);
    var events: seq<Event> :| later == Run(r, events);
    RunPersists(r, events);
    assert Remains(r, later, id);
    var token := TokenOf(r, id);
    if Resolve(later, token).Some? {
      var found := Resolve(later, token).value;
      ReachableValid(later);
      assert SlotFits(later, IndexOf(token));
      ResolvesToMinted(later, token, found);
      if found < id { TokensUnique(later, found, id); }
      if id < found { TokensUnique(later, id, found); }
    }
  }

  /** A generation never wraps: a spent slot is exhausted for good instead of being reused. */
  lemma ExhaustionIsFinal(r: Registry, later: Registry, i: Index)
    requires Reachable(r) && Follows(r, later) && r.slots[i].exhausted
    ensures later.slots[i].exhausted && !later.slots[i].reserved && later.slots[i].generation == r.slots[i].generation
    ensures r.slots[i].generation <= MAX_GENERATION
  {
    ReachableValid(r);
    var events: seq<Event> :| later == Run(r, events);
    RunPersists(r, events);
    RunValid(r, events);
    assert SlotFits(r, i) && SlotFits(later, i);
  }

  /** admit_in refuses only when every slot is reserved or spent, and then it only marks the spent ones. */
  lemma RefusalMeansFull(r: Registry)
    requires Reachable(r)
    ensures |Next(r, Admit).instances| == |r.instances| <==> forall i: Index :: Unusable(r.slots[i])
    ensures |Next(r, Admit).instances| == |r.instances| ==>
              forall i: Index :: Next(r, Admit).slots[i] == Passed(r.slots[i])
                                 && Passed(r.slots[i]).generation == r.slots[i].generation
    ensures AdmittedToken(r.slots).Some? ==>
              AdmittedToken(r.slots) == Some(TokenOf(Next(r, Admit), |r.instances|))
  {
  }
}
