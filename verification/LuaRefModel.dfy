/**
  References from C++ to Lua values. A value is kept alive by a slot of a Lua registry; a reference object holds the
  number of its slot and the state it belongs to, and is to give the slot back exactly once.
*/
module LuaRefModel {
  import opened Wrappers

  const NOREF := -2
  const REFNIL := -1

  /** A Lua state; the threads of one interpreter share a registry. */
  datatype State = State(registry: nat, thread: nat)

  datatype LuaValue = Nil | LuaValue(kind: int, identity: int)

  /** A slot: its registry and its number. */
  datatype Slot = Slot(registry: nat, number: int)

  type Slots = map<Slot, LuaValue>

  /** The fields of a reference object. */
  datatype Handle = Handle(lua: Option<State>, ref: int)

  const EMPTY := Handle(None, NOREF)

  predicate Valid(h: Handle) {
    h.lua.Some? && h.ref != REFNIL && h.ref != NOREF
  }

  function SlotOf(h: Handle): Slot
    requires Valid(h)
  {
    Slot(h.lua.value.registry, h.ref)
  }

  /** A valid reference holds a slot in use. */
  predicate Live(slots: Slots, h: Handle) {
    Valid(h) ==> SlotOf(h) in slots && slots[SlotOf(h)] != Nil
  }

  /** `number` is a slot Lua may hand out next. */
  predicate Free(slots: Slots, vm: State, number: int) {
    number > 0 && Slot(vm.registry, number) !in slots
  }

  /** What a reference refers to: nil when it is not valid. */
  function Target(slots: Slots, h: Handle): LuaValue
    requires Live(slots, h)
  {
    if Valid(h) then slots[SlotOf(h)] else Nil
  }

  /** The registries and a reference after an operation. */
  datatype Held = Held(slots: Slots, handle: Handle)

  /** `luaL_ref`: nil takes no slot. */
  function Register(slots: Slots, vm: State, value: LuaValue, free: int): Held {
    if value == Nil then Held(slots, Handle(Some(vm), REFNIL))
    else Held(slots[Slot(vm.registry, free) := value], Handle(Some(vm), free))
  }

  /** `release`: the state is kept. */
  function Release(slots: Slots, h: Handle): Held
    requires Live(slots, h)
  {
    Held(if Valid(h) then slots - {SlotOf(h)} else slots, h.(ref := NOREF))
  }

  function Copy(slots: Slots, rhs: Handle, free: int): Held
    requires Live(slots, rhs)
  {
    if Valid(rhs) then Register(slots, rhs.lua.value, slots[SlotOf(rhs)], free) else Held(slots, EMPTY)
  }

  /** Copy to a temporary, swap with it, destroy it. */
  function Assign(slots: Slots, h: Handle, rhs: Handle, free: int): Held
    requires Live(slots, h) && Live(slots, rhs)
    requires Valid(rhs) ==> Free(slots, rhs.lua.value, free)
  {
    var temp := Copy(slots, rhs, free);
    Held(Release(temp.slots, h).slots, temp.handle)
  }

  /** `set_ref` of what `luaL_ref` just returned. */
  function SetRef(slots: Slots, h: Handle, vm: State, value: LuaValue, free: int): Held
    requires Live(slots, h) && Free(slots, vm, free)
  {
    var made := Register(slots, vm, value, free);
    Held(Release(made.slots, h).slots, made.handle)
  }

  /** Whether what is found on the stack, if anything, is nil or a value of the kind referred to. */
  predicate Pullable(found: Option<LuaValue>, kind: int) {
    found.Some? && (found.value == Nil || found.value.kind == kind)
  }

  /**
    `pull` and `lua_get`: a value of the kind referred to, or nil; anything else is refused, and so is an empty stack.
   */
  function Pull(slots: Slots, h: Handle, vm: State, found: Option<LuaValue>, kind: int, free: int): Held
    requires Live(slots, h) && Free(slots, vm, free)
  {
    if !Pullable(found, kind) then Held(slots, h)
    else if found.value == Nil then Release(slots, h)
    else SetRef(slots, h, vm, found.value, free)
  }

  // ---- all references of a program ----

  /** The registries and the reference objects by name. */
  datatype World = World(slots: Slots, handles: map<nat, Handle>)

  const NOTHING := World(map[], map[])

  datatype Event =
    | Construct(x: nat, lua: Option<State>)
    | Wrap(x: nat, vm: State, value: LuaValue, free: int)
    | CopyOf(x: nat, rhs: nat, free: int)
    | Assignment(x: nat, rhs: nat, free: int)
    | Swap(x: nat, y: nat)
    | Set(x: nat, vm: State, value: LuaValue, free: int)
    | Pulled(x: nat, vm: State, found: Option<LuaValue>, kind: int, free: int)
    | Destroy(x: nat)

  ghost predicate AllLive(w: World) {
    forall x {:trigger w.handles[x]} :: x in w.handles ==> Live(w.slots, w.handles[x])
  }

  ghost predicate Distinct(w: World, x: nat, y: nat)
    requires x in w.handles && y in w.handles
  {
    x != y && Valid(w.handles[x]) && Valid(w.handles[y]) ==> SlotOf(w.handles[x]) != SlotOf(w.handles[y])
  }

  ghost predicate AllDistinct(w: World) {
    forall x, y {:trigger Distinct(w, x, y)} :: x in w.handles && y in w.handles ==> Distinct(w, x, y)
  }

  ghost predicate AllHeld(w: World) {
    forall s :: s in w.slots ==> IsHeld(w, s)
  }

  /** Every valid reference holds a slot in use, no two the same, and every slot in use is held. */
  ghost predicate Owned(w: World) {
    AllLive(w) && AllDistinct(w) && AllHeld(w)
  }

  ghost predicate IsHeld(w: World, s: Slot) {
    exists x :: x in w.handles && Valid(w.handles[x]) && SlotOf(w.handles[x]) == s
  }

  /** What the program may do next; `free` is a slot that Lua may hand out. */
  predicate Possible(w: World, e: Event) {
    match e
    case Construct(x, _) => x !in w.handles
    case Wrap(x, vm, _, free) => x !in w.handles && Free(w.slots, vm, free)
    case CopyOf(x, rhs, free) =>
      x !in w.handles && rhs in w.handles && (Valid(w.handles[rhs]) ==> Free(w.slots, w.handles[rhs].lua.value, free))
    case Assignment(x, rhs, free) =>
      x in w.handles && rhs in w.handles && (Valid(w.handles[rhs]) ==> Free(w.slots, w.handles[rhs].lua.value, free))
    case Swap(x, y) => x in w.handles && y in w.handles
    case Set(x, vm, _, free) => x in w.handles && Free(w.slots, vm, free)
    case Pulled(x, vm, _, _, free) => x in w.handles && Free(w.slots, vm, free)
    case Destroy(x) => x in w.handles
  }

  function Put(w: World, x: nat, held: Held): World {
    World(held.slots, w.handles[x := held.handle])
  }

  function After(w: World, e: Event): World
    requires AllLive(w) && Possible(w, e)
  {
    match e
    case Construct(x, lua) => Put(w, x, Held(w.slots, Handle(lua, NOREF)))
    case Wrap(x, vm, value, free) => Put(w, x, Register(w.slots, vm, value, free))
    case CopyOf(x, rhs, free) => Put(w, x, Copy(w.slots, w.handles[rhs], free))
    case Assignment(x, rhs, free) => Put(w, x, Assign(w.slots, w.handles[x], w.handles[rhs], free))
    case Swap(x, y) => w.(handles := w.handles[x := w.handles[y]][y := w.handles[x]])
    case Set(x, vm, value, free) => Put(w, x, SetRef(w.slots, w.handles[x], vm, value, free))
    case Pulled(x, vm, found, kind, free) => Put(w, x, Pull(w.slots, w.handles[x], vm, found, kind, free))
    case Destroy(x) => World(Release(w.slots, w.handles[x]).slots, w.handles - {x})
  }

  // ---- plain variables ----

  /** Without registries: what each reference refers to. */
  type Variables = map<nat, LuaValue>

  ghost function Meaning(w: World): Variables
    requires AllLive(w)
  {
    map x | x in w.handles :: Target(w.slots, w.handles[x])
  }

  predicate Fits(v: Variables, e: Event) {
    match e
    case Construct(_, _) => true
    case Wrap(_, _, _, _) => true
    case CopyOf(_, rhs, _) => rhs in v
    case Assignment(x, rhs, _) => x in v && rhs in v
    case Swap(x, y) => x in v && y in v
    case Set(x, _, _, _) => x in v
    case Pulled(x, _, _, _, _) => x in v
    case Destroy(x) => x in v
  }

  /** The same operation on plain variables. */
  function VariablesAfter(v: Variables, e: Event): Variables
    requires Fits(v, e)
  {
    match e
    case Construct(x, _) => v[x := Nil]
    case Wrap(x, _, value, _) => v[x := value]
    case CopyOf(x, rhs, _) => v[x := v[rhs]]
    case Assignment(x, rhs, _) => v[x := v[rhs]]
    case Swap(x, y) => v[x := v[y]][y := v[x]]
    case Set(x, _, value, _) => v[x := value]
    case Pulled(x, _, found, kind, _) =>
      match found {
        case None => v
        case Some(value) => if value == Nil || value.kind == kind then v[x := value] else v
      }
    case Destroy(x) => v - {x}
  }

  /** One reference gives up its slot, if it had one, for a slot not in use that holds `value`. */
  ghost predicate Replaced(w: World, w': World, x: nat, h: Handle, value: LuaValue) {
    && w'.handles == w.handles[x := h]
    && (Valid(h) <==> value != Nil)
    && (Valid(h) ==> SlotOf(h) !in w.slots && SlotOf(h) in w'.slots && w'.slots[SlotOf(h)] == value)
    && (forall s :: s in w'.slots && (Valid(h) ==> s != SlotOf(h)) ==> s in w.slots && w'.slots[s] == w.slots[s])
    && (forall s :: s in w.slots ==>
          (s in w'.slots <==> !(x in w.handles && Valid(w.handles[x]) && SlotOf(w.handles[x]) == s)))
  }

  lemma OtherKept(w: World, w': World, x: nat, h: Handle, value: LuaValue, y: nat)
    requires AllLive(w) && AllDistinct(w) && Replaced(w, w', x, h, value) && y in w.handles && y != x
    ensures w'.handles[y] == w.handles[y] && Live(w'.slots, w.handles[y])
    ensures Target(w'.slots, w.handles[y]) == Target(w.slots, w.handles[y])
    ensures Valid(h) && Valid(w.handles[y]) ==> SlotOf(h) != SlotOf(w.handles[y])
  {
    if Valid(w.handles[y]) {
      assert SlotOf(w.handles[y]) in w.slots;
      assert x in w.handles ==> Distinct(w, x, y);
      assert SlotOf(w.handles[y]) in w'.slots;
    }
  }

  lemma StillLive(w: World, w': World, x: nat, h: Handle, value: LuaValue)
    requires AllLive(w) && AllDistinct(w) && Replaced(w, w', x, h, value)
    ensures AllLive(w') && Meaning(w') == Meaning(w)[x := value]
  {
    forall y | y in w'.handles
      ensures Live(w'.slots, w'.handles[y])
      ensures Target(w'.slots, w'.handles[y]) == Meaning(w)[x := value][y]
    {
      if y != x {
        OtherKept(w, w', x, h, value, y);
      }
    }
  }

  lemma StillDistinct(w: World, w': World, x: nat, h: Handle, value: LuaValue)
    requires AllLive(w) && AllDistinct(w) && Replaced(w, w', x, h, value)
    ensures AllDistinct(w')
  {
    forall y, z | y in w'.handles && z in w'.handles
      ensures Distinct(w', y, z)
    {
      if y != x {
        OtherKept(w, w', x, h, value, y);
      }
      if z != x {
        OtherKept(w, w', x, h, value, z);
      }
      if y != x && z != x {
        assert Distinct(w, y, z);
      }
    }
  }

  lemma StillHeld(w: World, w': World, x: nat, h: Handle, value: LuaValue)
    requires AllHeld(w) && Replaced(w, w', x, h, value)
    ensures AllHeld(w')
  {
    forall s | s in w'.slots
      ensures IsHeld(w', s)
    {
      if Valid(h) && s == SlotOf(h) {
        assert x in w'.handles && w'.handles[x] == h;
      } else {
        assert IsHeld(w, s);
        var y :| y in w.handles && Valid(w.handles[y]) && SlotOf(w.handles[y]) == s;
        assert y in w'.handles && w'.handles[y] == w.handles[y];
      }
    }
  }

  lemma ReplacedKeeps(w: World, w': World, x: nat, h: Handle, value: LuaValue)
    requires Owned(w) && Replaced(w, w', x, h, value)
    ensures Owned(w') && Meaning(w') == Meaning(w)[x := value]
  {
    StillLive(w, w', x, h, value);
    StillDistinct(w, w', x, h, value);
    StillHeld(w, w', x, h, value);
  }

  lemma RegisterReplaces(w: World, x: nat, vm: State, value: LuaValue, free: int)
    requires x !in w.handles && Free(w.slots, vm, free)
    ensures var held := Register(w.slots, vm, value, free);
            Replaced(w, Put(w, x, held), x, held.handle, value)
  {
  }

  lemma ReleaseReplaces(w: World, x: nat, h: Handle)
    requires x in w.handles && Live(w.slots, w.handles[x]) && !Valid(h)
    ensures Replaced(w, Put(w, x, Held(Release(w.slots, w.handles[x]).slots, h)), x, h, Nil)
  {
  }

  lemma SetRefReplaces(w: World, x: nat, vm: State, value: LuaValue, free: int)
    requires x in w.handles && Live(w.slots, w.handles[x]) && Free(w.slots, vm, free)
    ensures var held := SetRef(w.slots, w.handles[x], vm, value, free);
            Replaced(w, Put(w, x, held), x, held.handle, value)
  {
  }

  lemma AssignReplaces(w: World, x: nat, rhs: nat, free: int)
    requires AllLive(w) && Possible(w, Assignment(x, rhs, free))
    ensures var held := Assign(w.slots, w.handles[x], w.handles[rhs], free);
            Replaced(w, Put(w, x, held), x, held.handle, Target(w.slots, w.handles[rhs]))
  {
    if Valid(w.handles[rhs]) {
      SetRefReplaces(w, x, w.handles[rhs].lua.value, w.slots[SlotOf(w.handles[rhs])], free);
    } else {
      ReleaseReplaces(w, x, EMPTY);
    }
  }

  lemma SwapKeeps(w: World, x: nat, y: nat)
    requires Owned(w) && x in w.handles && y in w.handles
    ensures var e := Swap(x, y);
            Owned(After(w, e)) && Meaning(After(w, e)) == VariablesAfter(Meaning(w), e)
  {
    var w' := After(w, Swap(x, y));
    forall a, b | a in w'.handles && b in w'.handles
      ensures Distinct(w', a, b)
    {
      var a', b' := Other(a, x, y), Other(b, x, y);
      assert w'.handles[a] == w.handles[a'] && w'.handles[b] == w.handles[b'];
      assert Distinct(w, a', b');
    }
    forall s | s in w'.slots
      ensures IsHeld(w', s)
    {
      assert IsHeld(w, s);
      var a :| a in w.handles && Valid(w.handles[a]) && SlotOf(w.handles[a]) == s;
      assert w'.handles[Other(a, x, y)] == w.handles[a];
    }
  }

  function Other(a: nat, x: nat, y: nat): nat {
    if a == x then y else if a == y then x else a
  }

  lemma DestroyKeeps(w: World, x: nat)
    requires Owned(w) && x in w.handles
    ensures var e := Destroy(x);
            Owned(After(w, e)) && Meaning(After(w, e)) == VariablesAfter(Meaning(w), e)
  {
    var w' := After(w, Destroy(x));
    forall a | a in w'.handles
      ensures Live(w'.slots, w'.handles[a]) && Target(w'.slots, w'.handles[a]) == Target(w.slots, w.handles[a])
    {
      assert Distinct(w, a, x);
    }
    forall a, b | a in w'.handles && b in w'.handles
      ensures Distinct(w', a, b)
    {
      assert Distinct(w, a, b);
    }
    forall s | s in w'.slots
      ensures IsHeld(w', s)
    {
      assert IsHeld(w, s);
      var a :| a in w.handles && Valid(w.handles[a]) && SlotOf(w.handles[a]) == s;
      assert a in w'.handles;
    }
  }

  /**
    One operation: ownership is kept, and the references behave as plain variables do, each holding a value of its own.
   */
  lemma EventRefines(w: World, e: Event)
    requires Owned(w) && Possible(w, e)
    ensures Owned(After(w, e))
    ensures Fits(Meaning(w), e) && Meaning(After(w, e)) == VariablesAfter(Meaning(w), e)
  {
    var w' := After(w, e);
    match e
    case Construct(x, lua) => ReplacedKeeps(w, w', x, Handle(lua, NOREF), Nil);
    case Wrap(x, vm, value, free) =>
      RegisterReplaces(w, x, vm, value, free);
      ReplacedKeeps(w, w', x, w'.handles[x], value);
    case CopyOf(x, rhs, free) =>
      var h := w.handles[rhs];
      if Valid(h) {
        RegisterReplaces(w, x, h.lua.value, w.slots[SlotOf(h)], free);
      }
      ReplacedKeeps(w, w', x, w'.handles[x], Target(w.slots, h));
    case Assignment(x, rhs, free) =>
      AssignReplaces(w, x, rhs, free);
      ReplacedKeeps(w, w', x, w'.handles[x], Target(w.slots, w.handles[rhs]));
    case Swap(x, y) => SwapKeeps(w, x, y);
    case Set(x, vm, value, free) =>
      SetRefReplaces(w, x, vm, value, free);
      ReplacedKeeps(w, w', x, w'.handles[x], value);
    case Pulled(x, vm, found, kind, free) => PulledRefines(w, x, vm, found, kind, free);
    case Destroy(x) => DestroyKeeps(w, x);
  }

  lemma PulledRefines(w: World, x: nat, vm: State, found: Option<LuaValue>, kind: int, free: int)
    requires Owned(w) && Possible(w, Pulled(x, vm, found, kind, free))
    ensures var e := Pulled(x, vm, found, kind, free);
            Owned(After(w, e)) && Meaning(After(w, e)) == VariablesAfter(Meaning(w), e)
  {
    var w' := After(w, Pulled(x, vm, found, kind, free));
    if !Pullable(found, kind) {
      assert w'.handles == w.handles;
    } else if found.value == Nil {
      ReleaseReplaces(w, x, w.handles[x].(ref := NOREF));
      ReplacedKeeps(w, w', x, w'.handles[x], Nil);
    } else {
      SetRefReplaces(w, x, vm, found.value, free);
      ReplacedKeeps(w, w', x, w'.handles[x], found.value);
    }
  }

  // ---- the states references belong to ----

  type Owners = map<nat, Option<State>>

  ghost function OwnersOf(w: World): Owners {
    map x | x in w.handles :: w.handles[x].lua
  }

  /**
    Copies go to the state of what they copy, and to none if that refers to nothing; a value from a state brings its
    reference there; giving a value up, by a nil or by a refusal, leaves it where it was.
   */
  function OwnersAfter(owners: Owners, v: Variables, e: Event): Owners
    requires Fits(v, e) && owners.Keys == v.Keys
  {
    match e
    case Construct(x, lua) => owners[x := lua]
    case Wrap(x, vm, _, _) => owners[x := Some(vm)]
    case CopyOf(x, rhs, _) => owners[x := if v[rhs] == Nil then None else owners[rhs]]
    case Assignment(x, rhs, _) => owners[x := if v[rhs] == Nil then None else owners[rhs]]
    case Swap(x, y) => owners[x := owners[y]][y := owners[x]]
    case Set(x, vm, _, _) => owners[x := Some(vm)]
    case Pulled(x, vm, found, kind, _) =>
      match found {
        case None => owners
        case Some(value) => if value != Nil && value.kind == kind then owners[x := Some(vm)] else owners
      }
    case Destroy(x) => owners - {x}
  }

  lemma PutOwners(w: World, x: nat, held: Held)
    ensures OwnersOf(Put(w, x, held)) == OwnersOf(w)[x := held.handle.lua]
  {
  }

  lemma CopyOwner(slots: Slots, rhs: Handle, free: int)
    requires Live(slots, rhs)
    ensures Copy(slots, rhs, free).handle.lua == if Target(slots, rhs) == Nil then None else rhs.lua
  {
  }

  lemma PullOwner(slots: Slots, h: Handle, vm: State, found: Option<LuaValue>, kind: int, free: int)
    requires Live(slots, h) && Free(slots, vm, free)
    ensures Pull(slots, h, vm, found, kind, free).handle.lua ==
            if found.Some? && found.value != Nil && found.value.kind == kind then Some(vm) else h.lua
  {
  }

  lemma OwnersFollow(w: World, e: Event)
    requires AllLive(w) && Possible(w, e) && Fits(Meaning(w), e)
    ensures OwnersOf(After(w, e)) == OwnersAfter(OwnersOf(w), Meaning(w), e)
  {
    match e
    case Construct(x, lua) => PutOwners(w, x, Held(w.slots, Handle(lua, NOREF)));
    case Wrap(x, vm, value, free) => PutOwners(w, x, Register(w.slots, vm, value, free));
    case CopyOf(x, rhs, free) =>
      CopyOwner(w.slots, w.handles[rhs], free);
      PutOwners(w, x, Copy(w.slots, w.handles[rhs], free));
    case Assignment(x, rhs, free) =>
      CopyOwner(w.slots, w.handles[rhs], free);
      PutOwners(w, x, Assign(w.slots, w.handles[x], w.handles[rhs], free));
    case Swap(_, _) =>
    case Set(x, vm, value, free) => PutOwners(w, x, SetRef(w.slots, w.handles[x], vm, value, free));
    case Pulled(x, vm, found, kind, free) =>
      PullOwner(w.slots, w.handles[x], vm, found, kind, free);
      PutOwners(w, x, Pull(w.slots, w.handles[x], vm, found, kind, free));
    case Destroy(_) =>
  }

  // ---- runs ----

  ghost predicate IsRun(w: World, events: seq<Event>)
    requires Owned(w)
    decreases |events|
  {
    events == []
    || (Possible(w, events[0])
        && (EventRefines(w, events[0]); IsRun(After(w, events[0]), events[1..])))
  }

  ghost function Final(w: World, events: seq<Event>): (w': World)
    requires Owned(w) && IsRun(w, events)
    ensures Owned(w')
    decreases |events|
  {
    if events == [] then w
    else
      EventRefines(w, events[0]);
      Final(After(w, events[0]), events[1..])
  }

  ghost predicate FitRun(v: Variables, events: seq<Event>)
    decreases |events|
  {
    events == [] || (Fits(v, events[0]) && FitRun(VariablesAfter(v, events[0]), events[1..]))
  }

  ghost function VariablesFinal(v: Variables, events: seq<Event>): Variables
    requires FitRun(v, events)
    decreases |events|
  {
    if events == [] then v else VariablesFinal(VariablesAfter(v, events[0]), events[1..])
  }

  /** Any sequence of operations: the references end up with the values plain variables would have. */
  lemma {:induction false} RunsRefine(w: World, events: seq<Event>)
    requires Owned(w) && IsRun(w, events)
    ensures FitRun(Meaning(w), events) && Meaning(Final(w, events)) == VariablesFinal(Meaning(w), events)
    decreases |events|
  {
    if events != [] {
      EventRefines(w, events[0]);
      RunsRefine(After(w, events[0]), events[1..]);
    }
  }

  /** When every reference is destroyed or refers to nil, no registry has a slot left in use. */
  lemma NothingIsLeft(events: seq<Event>)
    requires IsRun(NOTHING, events)
    ensures var w := Final(NOTHING, events);
            w.slots == map[] <==> forall x :: x in w.handles ==> Meaning(w)[x] == Nil
  {
    var w := Final(NOTHING, events);
    forall s | s in w.slots
      ensures exists x :: x in w.handles && Meaning(w)[x] != Nil
    {
      assert IsHeld(w, s);
    }
  }
}
