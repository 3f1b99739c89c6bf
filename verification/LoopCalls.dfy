/**
  A program's use of the cached class model: classes are defined, redefined and assigned to, in any order.
*/
module LoopCalls {
  import opened Wrappers

  import opened ClassGraph
  import opened FieldUpdate
  import opened Relinking
  import opened Walks
  import opened CachedModel

  /** Classes are numbered in the order of their definition. */
  datatype Call =
    | NewClass(members: Table<Value>, parents: seq<nat>)
    | NewParents(self: nat, parents: seq<nat>)
    | SetField(self: nat, name: string, member: Option<Value>)

  /** The classes after some of the calls, with their links and tables. */
  datatype State = State(
    classes: seq<CachedClass>, supers: map<CachedClass, seq<CachedClass>>, subs: map<CachedClass, set<CachedClass>>,
    members: map<CachedClass, Table<Value>>, flat: map<CachedClass, Table<Value>>, rank: map<CachedClass, nat>)
  {
    ghost predicate Hierarchical() {
      && members.Keys == supers.Keys == flat.Keys && (forall i :: 0 <= i < |classes| ==> classes[i] in supers)
      && Ranked<CachedClass>(supers, rank) && Inverse<CachedClass>(supers, subs)
    }

    /** Every table agrees with the recursive lookup. */
    ghost predicate Right()
      requires Hierarchical()
    {
      Coherent<CachedClass, Value>(supers, rank, members, flat)
    }
  }

  predicate Defined(n: nat, numbers: seq<nat>) {
    forall i :: 0 <= i < |numbers| ==> numbers[i] < n
  }

  function Chosen(classes: seq<CachedClass>, numbers: seq<nat>): (chosen: seq<CachedClass>)
    requires Defined(|classes|, numbers)
    ensures |chosen| == |numbers| && forall i :: 0 <= i < |numbers| ==> chosen[i] == classes[numbers[i]]
  {
    if numbers == [] then []
    else Chosen(classes, numbers[..|numbers| - 1]) + [classes[numbers[|numbers| - 1]]]
  }

  /** Superclasses are defined before, no class is put above itself, and `__index` is not assigned. */
  ghost predicate Allowed(s: State, call: Call)
    requires s.Hierarchical()
  {
    match call
    case NewClass(_, parents) => Defined(|s.classes|, parents)
    case NewParents(self, parents) =>
      self < |s.classes| && Defined(|s.classes|, parents)
      && forall i :: 0 <= i < |parents| ==>
           !SubclassOf<CachedClass>(s.supers, s.rank, s.classes[parents[i]], s.classes[self])
    case SetField(self, name, _) => self < |s.classes| && name != INDEX
  }

  /** What a call does to the links and to the members. */
  ghost predicate Follows(s: State, call: Call, s': State)
    requires s.Hierarchical() && Allowed(s, call)
  {
    match call
    case NewClass(members, parents) =>
      && |s'.classes| == |s.classes| + 1 && s'.classes[..|s.classes|] == s.classes
      && var c := s'.classes[|s.classes|];
         && c !in s.supers && s'.supers == s.supers[c := Chosen(s.classes, parents)]
         && s'.members == s.members[c := members]
    case NewParents(self, parents) =>
      && s'.classes == s.classes && s'.members == s.members
      && s'.supers == s.supers[s.classes[self] := Chosen(s.classes, parents)]
    case SetField(self, name, member) =>
      var c := s.classes[self];
      s'.classes == s.classes && s'.supers == s.supers
      && s'.members == s.members[c := Put(s.members[c], name, member)]
  }

  /** An assignment of a value, or of nil where that leaves no stale or missing entry. */
  ghost predicate Harmless(s: State, call: Call)
    requires s.Hierarchical() && Allowed(s, call)
  {
    call.SetField? ==>
      call.member.Some?
      || ClearingKeepsCache<CachedClass, Value>(s.supers, s.subs, s.members, s.flat, s.classes[call.self], call.name)
  }

  /** A call that keeps the tables right: a redefinition leaves a levelled hierarchy, and a nil is harmless. */
  ghost predicate Careful(s: State, call: Call, s': State)
    requires s.Hierarchical() && Allowed(s, call) && s'.Hierarchical()
  {
    && Harmless(s, call)
    && (call.NewParents? ==> EqualWays<CachedClass>(s'.supers, s'.rank, s.classes[call.self]))
  }

  /** The objects are in the state. */
  ghost predicate At(world: set<CachedClass>, s: State)
    reads world
  {
    && s.supers.Keys == s.subs.Keys == s.members.Keys == s.flat.Keys == world
    && (forall i :: 0 <= i < |s.classes| ==> s.classes[i] in world)
    && forall c :: c in world ==>
         c.supers == s.supers[c] && c.subs == s.subs[c] && c.members == s.members[c] && c.flat == s.flat[c]
  }

  lemma AtIs(world: set<CachedClass>, s: State)
    requires At(world, s)
    ensures SupersOf(world) == s.supers && SubsOf(world) == s.subs && MembersOf(world) == s.members
    ensures FlatOf(world) == s.flat
    ensures s.Hierarchical() <==> Hierarchy(world, s.rank)
    ensures s.Hierarchical() ==> (s.Right() <==> Cached(world, s.rank))
  {
  }

  ghost function StateOf(classes: seq<CachedClass>, world: set<CachedClass>, rank: map<CachedClass, nat>): State
    reads world
  {
    State(classes, SupersOf(world), SubsOf(world), MembersOf(world), FlatOf(world), rank)
  }

  lemma StateIs(classes: seq<CachedClass>, world: set<CachedClass>, rank: map<CachedClass, nat>)
    requires forall i :: 0 <= i < |classes| ==> classes[i] in world
    ensures At(world, StateOf(classes, world, rank))
  {
  }

  // ---- new classes ----

  method Define(members: Table<Value>, parents: seq<CachedClass>, ghost world: set<CachedClass>,
                ghost rank: map<CachedClass, nat>)
    returns (c: CachedClass, ghost world': set<CachedClass>, ghost rank': map<CachedClass, nat>)
    requires Hierarchy(world, rank) && forall s :: s in parents ==> s in world
    modifies world`subs, world`flat
    ensures fresh(c) && world' == world + {c} && c.supers == parents && c.members == members
    ensures Hierarchy(world', rank') && (old(Cached(world, rank)) ==> Cached(world', rank'))
    ensures forall x :: x in world ==> x.supers == old(x.supers) && x.members == old(x.members)
  {
    c, world', rank' := DefineClass(members, parents, world, rank);
  }

  lemma NewClassFollows(s: State, members: Table<Value>, parents: seq<nat>, c: CachedClass, world': set<CachedClass>,
                        rank': map<CachedClass, nat>)
    requires s.Hierarchical() && Defined(|s.classes|, parents) && c !in s.supers && world' == s.supers.Keys + {c}
    requires forall x :: x in s.supers ==> x.supers == s.supers[x] && x.members == s.members[x]
    requires c.supers == Chosen(s.classes, parents) && c.members == members
    ensures Follows(s, NewClass(members, parents), StateOf(s.classes + [c], world', rank'))
  {
    assert SupersOf(world') == s.supers[c := Chosen(s.classes, parents)];
    assert MembersOf(world') == s.members[c := members];
  }

  method DoNewClass(members: Table<Value>, parents: seq<nat>, classes: seq<CachedClass>,
                    ghost world: set<CachedClass>, ghost s: State)
    returns (classes': seq<CachedClass>, ghost world': set<CachedClass>, ghost s': State)
    requires At(world, s) && s.classes == classes && s.Hierarchical() && Defined(|classes|, parents)
    modifies world
    ensures At(world', s') && s'.classes == classes' && s'.Hierarchical() && fresh(world' - world)
    ensures Follows(s, NewClass(members, parents), s') && (s.Right() ==> s'.Right())
  {
    AtIs(world, s);
    var c;
    ghost var rank';
    c, world', rank' := Define(members, Chosen(classes, parents), world, s.rank);
    classes' := classes + [c];
    s' := StateOf(classes', world', rank');
    NewClassFollows(s, members, parents, c, world', rank');
    StateIs(classes', world', rank');
    AtIs(world', s');
  }

  // ---- new superclasses ----

  lemma CachedIsLinkedOutside(world: set<CachedClass>, rank: map<CachedClass, nat>, self: CachedClass)
    requires self in world && Hierarchy(world, rank) && Cached(world, rank)
    ensures LinkedOutside(world, rank, self)
  {
    forall c | c in SupersOf(world)
      ensures LinkedForAll<CachedClass, Value>(SupersOf(world), MembersOf(world), FlatOf(world), c)
    {
      CoherentIsLinked<CachedClass, Value>(SupersOf(world), rank, MembersOf(world), FlatOf(world), c);
    }
  }

  method Redefine(self: CachedClass, parents: seq<CachedClass>, ghost world: set<CachedClass>,
                  ghost rank: map<CachedClass, nat>)
    returns (ghost rank': map<CachedClass, nat>, ghost order: seq<CachedClass>)
    requires self in world && Hierarchy(world, rank)
    requires forall s :: s in parents ==> s in world && !SubclassOf<CachedClass>(SupersOf(world), rank, s, self)
    modifies self`supers, world`subs, world`flat
    ensures self.supers == parents && Hierarchy(world, rank')
    ensures EqualWays<CachedClass>(SupersOf(world), rank', self) ==> SupersFirst(world, rank', self, order)
    ensures SupersFirst(world, rank', self, order) && old(LinkedOutside(world, rank, self)) ==> Cached(world, rank')
    ensures forall x :: x in world ==> (x != self ==> x.supers == old(x.supers)) && x.members == old(x.members)
  {
    rank', order := self.Reparent(parents, world, rank);
    forall x | x in world ensures x.members == old(x.members) {
    }
  }

  lemma NewParentsFollows(s: State, self: nat, parents: seq<nat>, rank': map<CachedClass, nat>)
    requires s.Hierarchical() && Allowed(s, NewParents(self, parents))
    requires s.classes[self].supers == Chosen(s.classes, parents)
    requires forall x :: x in s.supers ==>
               (x != s.classes[self] ==> x.supers == s.supers[x]) && x.members == s.members[x]
    ensures Follows(s, NewParents(self, parents), StateOf(s.classes, s.supers.Keys, rank'))
  {
    var world := s.supers.Keys;
    assert SupersOf(world) == s.supers[s.classes[self] := Chosen(s.classes, parents)];
    assert MembersOf(world) == s.members;
  }

  method DoNewParents(self: nat, parents: seq<nat>, classes: seq<CachedClass>, ghost world: set<CachedClass>,
                      ghost s: State)
    returns (ghost s': State)
    requires At(world, s) && s.classes == classes && s.Hierarchical() && Allowed(s, NewParents(self, parents))
    modifies world
    ensures At(world, s') && s'.classes == classes && s'.Hierarchical()
    ensures Follows(s, NewParents(self, parents), s')
    ensures s.Right() && EqualWays<CachedClass>(s'.supers, s'.rank, classes[self]) ==> s'.Right()
  {
    AtIs(world, s);
    if s.Right() {
      CachedIsLinkedOutside(world, s.rank, classes[self]);
    }
    ghost var rank', order := Redefine(classes[self], Chosen(classes, parents), world, s.rank);
    s' := StateOf(classes, world, rank');
    NewParentsFollows(s, self, parents, rank');
    StateIs(classes, world, rank');
    AtIs(world, s');
  }

  // ---- assignments ----

  method Assign(self: CachedClass, name: string, member: Option<Value>, ghost world: set<CachedClass>,
                ghost rank: map<CachedClass, nat>)
    requires name != INDEX && self in world && Hierarchy(world, rank)
    modifies self`members, world`flat
    ensures self.members == Put(old(self.members), name, member) && Hierarchy(world, rank)
    ensures old(Cached(world, rank)) ==>
              (Cached(world, rank) <==>
               member.Some?
               || old(ClearingKeepsCache<CachedClass, Value>(SupersOf(world), SubsOf(world), MembersOf(world),
                                                             FlatOf(world), self, name)))
    ensures forall x :: x in world ==> x.supers == old(x.supers) && (x != self ==> x.members == old(x.members))
  {
    var previous := self.UpdateField(name, member, world, rank);
  }

  lemma SetFieldFollows(s: State, self: nat, name: string, member: Option<Value>)
    requires s.Hierarchical() && Allowed(s, SetField(self, name, member))
    requires s.classes[self].members == Put(s.members[s.classes[self]], name, member)
    requires forall x :: x in s.supers ==>
               x.supers == s.supers[x] && (x != s.classes[self] ==> x.members == s.members[x])
    ensures Follows(s, SetField(self, name, member), StateOf(s.classes, s.supers.Keys, s.rank))
  {
    var world, c := s.supers.Keys, s.classes[self];
    assert SupersOf(world) == s.supers;
    assert MembersOf(world) == s.members[c := Put(s.members[c], name, member)];
  }

  method DoSetField(self: nat, name: string, member: Option<Value>, classes: seq<CachedClass>,
                    ghost world: set<CachedClass>, ghost s: State)
    returns (ghost s': State)
    requires At(world, s) && s.classes == classes && s.Hierarchical() && Allowed(s, SetField(self, name, member))
    modifies world
    ensures At(world, s') && s'.classes == classes && s'.Hierarchical()
    ensures Follows(s, SetField(self, name, member), s')
    ensures s.Right() ==>
              (s'.Right() <==>
               member.Some? || ClearingKeepsCache<CachedClass, Value>(s.supers, s.subs, s.members, s.flat,
                                                                      classes[self], name))
  {
    AtIs(world, s);
    Assign(classes[self], name, member, world, s.rank);
    s' := StateOf(classes, world, s.rank);
    SetFieldFollows(s, self, name, member);
    StateIs(classes, world, s.rank);
    AtIs(world, s');
  }

  // ---- whole programs ----

  /** Whether the call can be made. */
  method Check(call: Call, classes: seq<CachedClass>, ghost world: set<CachedClass>, ghost s: State) returns (ok: bool)
    requires At(world, s) && s.classes == classes && s.Hierarchical()
    requires forall c :: c in world ==> c in classes
    ensures ok <==> Allowed(s, call)
  {
    match call
    case NewClass(_, parents) => return Defined(|classes|, parents);
    case NewParents(self, parents) =>
      if self >= |classes| || !Defined(|classes|, parents) {
        return false;
      }
      var supers := map c | c in classes :: c.supers;
      assert supers == s.supers;
      var i := 0;
      while i < |parents|
        invariant i <= |parents|
        invariant forall j :: 0 <= j < i ==>
                    !SubclassOf<CachedClass>(s.supers, s.rank, s.classes[parents[j]], s.classes[self])
      {
        if SubclassOf<CachedClass>(supers, s.rank, classes[parents[i]], classes[self]) {
          return false;
        }
        i := i + 1;
      }
      return true;
    case SetField(self, name, _) => return self < |classes| && name != INDEX;
  }

  method Make(call: Call, classes: seq<CachedClass>, ghost world: set<CachedClass>, ghost s: State)
    returns (classes': seq<CachedClass>, ghost world': set<CachedClass>, ghost s': State)
    requires At(world, s) && s.classes == classes && s.Hierarchical() && Allowed(s, call)
    requires forall c :: c in world ==> c in classes
    modifies world
    ensures At(world', s') && s'.classes == classes' && s'.Hierarchical() && fresh(world' - world)
    ensures forall c :: c in world' ==> c in classes'
    ensures Follows(s, call, s')
    ensures s.Right() && Careful(s, call, s') ==> s'.Right()
    ensures call.SetField? && s.Right() ==> (s'.Right() <==> Harmless(s, call))
  {
    match call
    case NewClass(members, parents) =>
      classes', world', s' := DoNewClass(members, parents, classes, world, s);
    case NewParents(self, parents) =>
      classes', world' := classes, world;
      s' := DoNewParents(self, parents, classes, world, s);
    case SetField(self, name, member) =>
      classes', world' := classes, world;
      s' := DoSetField(self, name, member, classes, world, s);
  }

  const NO_CLASSES: State := State([], map[], map[], map[], map[], map[])

  /** The states that calls have led to, the last one outermost. */
  datatype Trace = Start | Then(before: Trace, state: State)
  {
    function Last(): State {
      match this
      case Start => NO_CLASSES
      case Then(_, s) => s
    }

    function Size(): nat {
      match this
      case Start => 0
      case Then(before, _) => before.Size() + 1
    }
  }

  ghost predicate IsStep(s: State, call: Call, s': State) {
    s.Hierarchical() && Allowed(s, call) && Follows(s, call, s') && s'.Hierarchical()
  }

  /** Each call was allowed and had its effect on links and members; the hierarchy was one all along. */
  ghost predicate IsTrace(calls: seq<Call>, trace: Trace) {
    match trace
    case Start => true
    case Then(before, s) =>
      before.Size() < |calls| && IsTrace(calls, before) && IsStep(before.Last(), calls[before.Size()], s)
  }

  /** Right tables stay right through careful calls; through a nil they do exactly if it is harmless. */
  ghost predicate Keeps(s: State, call: Call, s': State)
    requires IsStep(s, call, s')
  {
    && (s.Right() && Careful(s, call, s') ==> s'.Right())
    && (s.Right() && call.SetField? ==> (s'.Right() <==> Harmless(s, call)))
  }

  ghost predicate AllKeep(calls: seq<Call>, trace: Trace)
    requires IsTrace(calls, trace)
  {
    match trace
    case Start => true
    case Then(before, s) => AllKeep(calls, before) && Keeps(before.Last(), calls[before.Size()], s)
  }

  /** Each redefinition left a levelled hierarchy and each nil was harmless. */
  ghost predicate AllCareful(calls: seq<Call>, trace: Trace)
    requires IsTrace(calls, trace)
  {
    match trace
    case Start => true
    case Then(before, s) =>
      AllCareful(calls, before) && Careful(before.Last(), calls[before.Size()], s)
  }

  /** Every table was right all along. */
  ghost predicate AllRight(calls: seq<Call>, trace: Trace)
    requires IsTrace(calls, trace)
  {
    match trace
    case Start => true
    case Then(before, s) => AllRight(calls, before) && s.Right()
  }

  lemma LastIsHierarchical(calls: seq<Call>, trace: Trace)
    requires IsTrace(calls, trace)
    ensures trace.Last().Hierarchical()
  {
  }

  lemma AllRightIsRight(calls: seq<Call>, trace: Trace)
    requires IsTrace(calls, trace) && AllRight(calls, trace)
    ensures trace.Last().Hierarchical() && trace.Last().Right()
  {
    LastIsHierarchical(calls, trace);
  }

  lemma {:induction false} CarefulIsRight(calls: seq<Call>, trace: Trace)
    requires IsTrace(calls, trace) && AllKeep(calls, trace)
    ensures AllCareful(calls, trace) ==> AllRight(calls, trace)
  {
    match trace
    case Start =>
    case Then(before, s) =>
      CarefulIsRight(calls, before);
      if AllCareful(calls, before) {
        AllRightIsRight(calls, before);
      }
  }

  /** One call, and what it keeps. */
  method MakeOne(call: Call, classes: seq<CachedClass>, ghost world: set<CachedClass>, ghost s: State)
    returns (classes': seq<CachedClass>, ghost world': set<CachedClass>, ghost s': State)
    requires At(world, s) && s.classes == classes && s.Hierarchical() && Allowed(s, call)
    requires forall c :: c in world ==> c in classes
    modifies world
    ensures At(world', s') && s'.classes == classes' && fresh(world' - world)
    ensures forall c :: c in world' ==> c in classes'
    ensures IsStep(s, call, s') && Keeps(s, call, s')
  {
    classes', world', s' := Make(call, classes, world, s);
  }

  lemma TraceGrows(calls: seq<Call>, trace: Trace, s': State)
    requires IsTrace(calls, trace) && AllKeep(calls, trace) && trace.Size() < |calls|
    requires IsStep(trace.Last(), calls[trace.Size()], s') && Keeps(trace.Last(), calls[trace.Size()], s')
    ensures IsTrace(calls, Then(trace, s')) && AllKeep(calls, Then(trace, s'))
  {
  }

  /** The trace has led to these objects. */
  ghost predicate Reached(calls: seq<Call>, trace: Trace, classes: seq<CachedClass>, world: set<CachedClass>)
    reads world
  {
    && trace.Size() <= |calls| && IsTrace(calls, trace) && AllKeep(calls, trace) && trace.Last().Hierarchical()
    && At(world, trace.Last()) && trace.Last().classes == classes && forall c :: c in world ==> c in classes
  }

  /** Makes the next call. */
  method MakeAllowed(calls: seq<Call>, handled: nat, classes: seq<CachedClass>, ghost world: set<CachedClass>,
                     ghost trace: Trace)
    returns (classes': seq<CachedClass>, ghost world': set<CachedClass>, ghost trace': Trace)
    requires handled == trace.Size() < |calls| && Reached(calls, trace, classes, world)
    requires Allowed(trace.Last(), calls[handled])
    modifies world
    ensures Reached(calls, trace', classes', world') && fresh(world' - world) && trace'.Size() == handled + 1
  {
    ghost var s';
    classes', world', s' := MakeOne(calls[handled], classes, world, trace.Last());
    TraceGrows(calls, trace, s');
    trace' := Then(trace, s');
  }

  /** Makes the next call if it can be made. */
  method MakeNext(calls: seq<Call>, handled: nat, classes: seq<CachedClass>, ghost world: set<CachedClass>,
                  ghost trace: Trace)
    returns (ok: bool, classes': seq<CachedClass>, ghost world': set<CachedClass>, ghost trace': Trace)
    requires handled == trace.Size() < |calls| && Reached(calls, trace, classes, world)
    modifies world
    ensures Reached(calls, trace', classes', world') && fresh(world' - world)
    ensures if ok then trace'.Size() == handled + 1
            else trace' == trace && !Allowed(trace'.Last(), calls[handled])
  {
    classes', world', trace' := classes, world, trace;
    ok := Check(calls[handled], classes, world, trace.Last());
    if ok {
      classes', world', trace' := MakeAllowed(calls, handled, classes, world, trace);
    }
  }

  /**
    Makes calls for as long as they can be made.  The hierarchy is one all along.  If each redefinition leaves paths of
    equal length and each nil is harmless, every table is right all along; and from right tables a nil that is not
    harmless leaves a wrong one.
   */
  method MakeAll(calls: seq<Call>)
    returns (classes: seq<CachedClass>, handled: nat, ghost world: set<CachedClass>, ghost trace: Trace)
    ensures handled == trace.Size() && fresh(world) && Reached(calls, trace, classes, world)
    ensures handled < |calls| ==> !Allowed(trace.Last(), calls[handled])
    ensures AllCareful(calls, trace) ==> AllRight(calls, trace)
  {
    classes, handled, world, trace := [], 0, {}, Start;
    while handled < |calls|
      invariant handled == trace.Size() && fresh(world) && Reached(calls, trace, classes, world)
    {
      var ok;
      ok, classes, world, trace := MakeNext(calls, handled, classes, world, trace);
      if !ok {
        break;
      }
      handled := handled + 1;
    }
    CarefulIsRight(calls, trace);
  }
}
