/**
  The cached class model of LOOP: classes are objects that keep, in `flat`, their own and
  their inherited members, so that a lookup is one table read.

  `world` is the set of classes of the hierarchy and `rank` a witness that it is acyclic; both are
  ghost.  Tables hold the members other than the metafield `__index`, which the model treats apart.
*/
module CachedModel {
  import opened Wrappers

  import opened ClassGraph
  import opened FieldUpdate
  import opened Relinking
  import opened Walks

  /** A Lua value other than nil, compared by identity. */
  datatype Value = Value(id: nat)

  const INDEX := "__index"

  ghost function SupersOf(world: set<CachedClass>): map<CachedClass, seq<CachedClass>>
    reads world
  {
    map c | c in world :: c.supers
  }

  ghost function SubsOf(world: set<CachedClass>): map<CachedClass, set<CachedClass>>
    reads world
  {
    map c | c in world :: c.subs
  }

  ghost function MembersOf(world: set<CachedClass>): map<CachedClass, Table<Value>>
    reads world
  {
    map c | c in world :: c.members
  }

  ghost function FlatOf(world: set<CachedClass>): map<CachedClass, Table<Value>>
    reads world
  {
    map c | c in world :: c.flat
  }

  ghost predicate Hierarchy(world: set<CachedClass>, rank: map<CachedClass, nat>)
    reads world
  {
    Ranked<CachedClass>(SupersOf(world), rank) && Inverse<CachedClass>(SupersOf(world), SubsOf(world))
  }

  /** Every class's table agrees with the recursive lookup, for every name. */
  ghost predicate Cached(world: set<CachedClass>, rank: map<CachedClass, nat>)
    requires Hierarchy(world, rank)
    reads world
  {
    Coherent<CachedClass, Value>(SupersOf(world), rank, MembersOf(world), FlatOf(world))
  }

  /** Visits `classes` in an order of its own and queues those not queued already. */
  method EnqueueAll<C(==)>(queue: seq<C>, classes: set<C>) returns (queue': seq<C>)
    ensures |queue| <= |queue'| && queue == queue'[..|queue|]
    ensures forall c :: c in queue' <==> c in queue || c in classes
    ensures forall i, j :: |queue| <= i < j < |queue'| ==> queue'[i] != queue'[j]
    ensures forall i :: |queue| <= i < |queue'| ==> queue'[i] !in queue
  {
    queue' := queue;
    var rest := classes;
    while rest != {}
      invariant rest <= classes
      invariant |queue| <= |queue'| && queue == queue'[..|queue|]
      invariant forall c :: c in queue' || c in rest <==> c in queue || c in classes
      invariant forall i, j :: |queue| <= i < j < |queue'| ==> queue'[i] != queue'[j]
      invariant forall i :: |queue| <= i < |queue'| ==> queue'[i] !in queue
    {
      var c :| c in rest;
      rest := rest - {c};
      if c !in queue' {
        queue' := queue' + [c];
      }
    }
  }

  /** Queueing subclasses weighs no more than the subclasses do. */
  lemma {:induction false} ExtensionWeight<C>(subs: map<C, set<C>>, rank: map<C, nat>, top: nat, queue: seq<C>,
                                              added: seq<C>, classes: set<C>, floor: nat)
    requires Descending(subs, rank, top) && floor <= top
    requires forall c :: c in queue ==> c in subs
    requires forall c :: c in classes ==> c in subs && floor < rank[c]
    requires forall c :: c in added ==> c in classes
    requires forall i, j :: 0 <= i < j < |added| ==> added[i] != added[j]
    ensures QueueWeight(subs, rank, top, queue + added)
         <= QueueWeight(subs, rank, top, queue) + WeightOf(subs, rank, top, classes, floor)
    decreases |added|
  {
    if added == [] {
      assert queue + added == queue;
    } else {
      var last, rest := added[|added| - 1], added[..|added| - 1];
      assert added == rest + [last];
      assert queue + added == (queue + rest) + [last];
      assert last in added && forall c :: c in rest ==> c in added;
      QueueWeightAppend(subs, rank, top, queue + rest, last);
      WeightOfRemove(subs, rank, top, classes, floor, last);
      ExtensionWeight(subs, rank, top, queue, rest, classes - {last}, floor);
    }
  }

  lemma SnapshotsMoved(world: set<CachedClass>, self: CachedClass, supers0: map<CachedClass, seq<CachedClass>>,
                       subs0: map<CachedClass, set<CachedClass>>)
    requires self in world && supers0.Keys == world && Inverse<CachedClass>(supers0, subs0)
    requires forall s :: s in self.supers ==> s in world
    requires forall c :: c in world && c != self ==> c.supers == supers0[c]
    requires forall c :: c in world ==> c.subs - {self} == subs0[c] - {self}
    requires forall c :: c in world ==>
               (self in c.subs <==> c in self.supers || (self in subs0[c] && c !in supers0[self]))
    ensures SupersOf(world) == supers0[self := self.supers]
    ensures Inverse<CachedClass>(SupersOf(world), SubsOf(world))
  {
    assert SupersOf(world) == supers0[self := self.supers];
    RelinkedInverse<CachedClass>(supers0, subs0, self, self.supers, SubsOf(world));
  }

  /** The heap as the assignment `a` sees it, with `flats` the tables. */
  ghost predicate Snapshot(world: set<CachedClass>, a: Assignment<CachedClass, Value>,
                           flats: map<CachedClass, Table<Value>>)
    reads world
  {
    && a.supers.Keys == a.subs.Keys == a.members.Keys == flats.Keys == world
    && forall c :: c in world ==>
         c.supers == a.supers[c] && c.subs == a.subs[c] && c.members == a.members[c] && c.flat == flats[c]
  }

  lemma SnapshotIs(world: set<CachedClass>, a: Assignment<CachedClass, Value>, flats: map<CachedClass, Table<Value>>)
    requires Snapshot(world, a, flats)
    ensures SupersOf(world) == a.supers && SubsOf(world) == a.subs && MembersOf(world) == a.members
    ensures FlatOf(world) == flats
  {
  }

  /** Replacing a queued class by its unqueued subclasses makes the queue lighter. */
  lemma QueueGrows<C>(subs: map<C, set<C>>, rank: map<C, nat>, top: nat, queue: seq<C>, queue': seq<C>)
    requires Descending(subs, rank, top)
    requires queue != [] && forall c :: c in queue ==> c in subs
    requires |queue| - 1 <= |queue'| && queue'[..|queue| - 1] == queue[1..]
    requires forall c :: c in queue' ==> c in queue[1..] || c in subs[queue[0]]
    requires forall i, j :: |queue| - 1 <= i < j < |queue'| ==> queue'[i] != queue'[j]
    requires forall i :: |queue| - 1 <= i < |queue'| ==> queue'[i] !in queue[1..]
    ensures forall c :: c in queue' ==> c in subs
    ensures QueueWeight(subs, rank, top, queue') < QueueWeight(subs, rank, top, queue)
  {
    var c, rest, added := queue[0], queue[1..], queue'[|queue| - 1..];
    assert c in queue && queue' == rest + added;
    assert forall x :: x in added ==> x in queue';
    forall x | x in added ensures x in subs[c] {
      var i :| 0 <= i < |added| && added[i] == x;
      assert queue'[|queue| - 1 + i] == x;
    }
    ExtensionWeight(subs, rank, top, rest, added, subs[c], rank[c]);
  }

  /** The heap as a walk over the region `r` sees it, with `flats` the tables. */
  ghost predicate Shape(world: set<CachedClass>, r: Region<CachedClass>, members: map<CachedClass, Table<Value>>,
                        flats: map<CachedClass, Table<Value>>)
    reads world
  {
    && r.supers.Keys == r.subs.Keys == members.Keys == flats.Keys == world
    && forall c :: c in world ==>
         c.supers == r.supers[c] && c.subs == r.subs[c] && c.members == members[c] && c.flat == flats[c]
  }

  lemma ShapeIs(world: set<CachedClass>, r: Region<CachedClass>, members: map<CachedClass, Table<Value>>,
                flats: map<CachedClass, Table<Value>>)
    requires Shape(world, r, members, flats)
    ensures SupersOf(world) == r.supers && SubsOf(world) == r.subs && MembersOf(world) == members
    ensures FlatOf(world) == flats
  {
  }

  lemma SameTables(world: set<CachedClass>, members: map<CachedClass, Table<Value>>,
                   flats: map<CachedClass, Table<Value>>)
    requires members.Keys == flats.Keys == world
    requires forall c :: c in world ==> c.members == members[c] && c.flat == flats[c]
    ensures MembersOf(world) == members && FlatOf(world) == flats
  {
  }

  /** Every class that is not at or below `self` has the table its superclasses and own members give. */
  ghost predicate LinkedOutside(world: set<CachedClass>, rank: map<CachedClass, nat>, self: CachedClass)
    requires Hierarchy(world, rank)
    reads world
  {
    forall c :: c in SupersOf(world) && !SubclassOf<CachedClass>(SupersOf(world), rank, c, self) ==>
      LinkedForAll<CachedClass, Value>(SupersOf(world), MembersOf(world), FlatOf(world), c)
  }

  ghost predicate IsBelow(world: set<CachedClass>, rank: map<CachedClass, nat>, c: CachedClass, self: CachedClass)
    requires Hierarchy(world, rank)
    reads world
  {
    c in SupersOf(world) && SubclassOf<CachedClass>(SupersOf(world), rank, c, self)
  }

  /** Every class at or below `self`, once. */
  ghost predicate EachOnce(world: set<CachedClass>, rank: map<CachedClass, nat>, self: CachedClass,
                           order: seq<CachedClass>)
    requires Hierarchy(world, rank)
    reads world
  {
    && (forall i, j :: 0 <= i < j < |order| ==> order[i] != order[j])
    && (forall c :: c in order ==> c in world)
    && (forall c :: c in world ==> (c in order <==> SubclassOf<CachedClass>(SupersOf(world), rank, c, self)))
  }

  /** Every class of `order` comes after those of its superclasses that are at or below `self`. */
  ghost predicate SupersFirst(world: set<CachedClass>, rank: map<CachedClass, nat>, self: CachedClass,
                              order: seq<CachedClass>)
    requires Hierarchy(world, rank)
    reads world
  {
    forall k, s {:trigger s in SupersOf(world)[order[k]]} ::
      0 <= k < |order| && order[k] in world && s in SupersOf(world)[order[k]] && IsBelow(world, rank, s, self) ==>
        s in order[..k]
  }

  /** A new class without superclasses or subclasses joins the hierarchy, with nothing below it. */
  lemma FreshClassFits(world: set<CachedClass>, rank: map<CachedClass, nat>, c: CachedClass)
    requires c !in world && c.supers == [] && c.subs == {} && Hierarchy(world, rank)
    ensures Hierarchy(world + {c}, rank[c := 0])
    ensures Cached(world, rank) ==> LinkedOutside(world + {c}, rank[c := 0], c)
    ensures forall x :: x in world ==> c !in x.supers
    ensures forall x :: x in world ==> !SubclassOf<CachedClass>(SupersOf(world + {c}), rank[c := 0], x, c)
  {
    var w := world + {c};
    assert SupersOf(w) == SupersOf(world)[c := []] && SubsOf(w) == SubsOf(world)[c := {}];
    NewClassJoins<CachedClass>(SupersOf(world), SubsOf(world), rank, c, SupersOf(w), SubsOf(w), rank[c := 0]);
    forall x | x in world ensures c !in x.supers {
      assert c !in SupersOf(w)[x];
    }
    if Cached(world, rank) {
      forall x | x in world ensures LinkedForAll<CachedClass, Value>(SupersOf(w), MembersOf(w), FlatOf(w), x) {
        OthersStayLinked<CachedClass, Value>(SupersOf(world), rank, MembersOf(world), FlatOf(world), c,
                                             SupersOf(w), MembersOf(w), FlatOf(w), x);
      }
    }
  }

  /** The walk itself. */
  method WalkAll(self: CachedClass, ghost world: set<CachedClass>, ghost r: Region<CachedClass>,
                 ghost members: map<CachedClass, Table<Value>>, ghost flat0: map<CachedClass, Table<Value>>)
    returns (ghost qs: seq<seq<CachedClass>>)
    requires r.Valid() && r.self == self && Shape(world, r, members, flat0)
    modifies world`flat
    ensures Finished<CachedClass>(r.subs, self, qs)
    ensures Shape(world, r, members, SweptBy(r, members, flat0, Order(qs), |Order(qs)|))
  {
    var queue := [self];
    qs := [queue];
    r.RoundsAreBounded(qs);
    var i := 0;
    while i < |queue|
      invariant i <= |queue| && |qs| == i + 1 <= |r.supers.Keys| + 1
      invariant Rounds<CachedClass>(r.subs, self, qs) && Order(qs) == queue
      invariant Shape(world, r, members, SweptBy(r, members, flat0, queue, i))
      decreases |r.supers.Keys| - i
    {
      queue, qs := WalkOn(queue, i, world, r, members, flat0, qs);
      i := i + 1;
    }
  }

  ghost function SweptBy(r: Region<CachedClass>, members: map<CachedClass, Table<Value>>,
                         flat0: map<CachedClass, Table<Value>>, order: seq<CachedClass>, n: nat)
    : map<CachedClass, Table<Value>>
    requires n <= |order|
  {
    Swept<CachedClass, Value>(r.supers, members, flat0, order, n)
  }

  lemma SweptOn(r: Region<CachedClass>, members: map<CachedClass, Table<Value>>, flat0: map<CachedClass, Table<Value>>,
                queue: seq<CachedClass>, queue': seq<CachedClass>, i: nat)
    requires i < |queue| <= |queue'| && queue == queue'[..|queue|]
    ensures SweptBy(r, members, flat0, queue', i + 1)
         == Visit<CachedClass, Value>(r.supers, members, SweptBy(r, members, flat0, queue, i), queue[i])
  {
    SweptPrefix<CachedClass, Value>(r.supers, members, flat0, queue, queue', i);
  }

  /** Rebuilds the table of the next class of a walk and queues its subclasses. */
  method WalkOn(queue: seq<CachedClass>, i: nat, ghost world: set<CachedClass>, ghost r: Region<CachedClass>,
                ghost members: map<CachedClass, Table<Value>>, ghost flat0: map<CachedClass, Table<Value>>,
                ghost qs: seq<seq<CachedClass>>)
    returns (queue': seq<CachedClass>, ghost qs': seq<seq<CachedClass>>)
    requires r.Valid() && i < |queue| && |qs| == i + 1
    requires Rounds<CachedClass>(r.subs, r.self, qs) && Order(qs) == queue
    requires Shape(world, r, members, SweptBy(r, members, flat0, queue, i))
    modifies world`flat
    ensures Rounds<CachedClass>(r.subs, r.self, qs') && Order(qs') == queue'
    ensures |qs'| == i + 2 <= |r.supers.Keys| + 1 && i < |queue'|
    ensures Shape(world, r, members, SweptBy(r, members, flat0, queue', i + 1))
  {
    r.QueueIsWalk(qs, i);
    Rebuild(queue[i], world, r, members, SweptBy(r, members, flat0, queue, i));
    queue' := EnqueueAll(queue, queue[i].subs);
    SweptOn(r, members, flat0, queue, queue', i);
    assert Shape(world, r, members, SweptBy(r, members, flat0, queue', i + 1));
    qs' := r.RoundOn(qs, queue');
  }

  method Rebuild(c: CachedClass, ghost world: set<CachedClass>, ghost r: Region<CachedClass>,
                 ghost members: map<CachedClass, Table<Value>>, ghost flats: map<CachedClass, Table<Value>>)
    requires Shape(world, r, members, flats) && c in world
    requires c !in r.supers[c] && forall s :: s in r.supers[c] ==> s in world
    modifies c`flat
    ensures Shape(world, r, members, Visit<CachedClass, Value>(r.supers, members, flats, c))
  {
    c.UpdateMembers(flats);
    ghost var flats' := Visit<CachedClass, Value>(r.supers, members, flats, c);
    forall name ensures Get(c.flat, name) == Get(flats'[c], name) {
      VisitRebuilds<CachedClass, Value>(r.supers, members, flats, c, name);
    }
    SameEntries(c.flat, flats'[c]);
  }

  /** Takes the first class off the queue and queues its subclasses; the queue gets lighter. */
  method Requeue<C(==)>(queue: seq<C>, classes: set<C>, ghost subs: map<C, set<C>>, ghost rank: map<C, nat>,
                        ghost top: nat)
    returns (queue': seq<C>)
    requires Descending(subs, rank, top)
    requires queue != [] && (forall c :: c in queue ==> c in subs) && queue[0] in subs && classes == subs[queue[0]]
    ensures forall c :: c in queue' <==> c in queue[1..] || c in classes
    ensures forall c :: c in queue' ==> c in subs
    ensures QueueWeight(subs, rank, top, queue') < QueueWeight(subs, rank, top, queue)
  {
    queue' := EnqueueAll(queue[1..], classes);
    QueueGrows(subs, rank, top, queue, queue');
  }

  class CachedClass {
    var supers: seq<CachedClass>
    var subs: set<CachedClass>
    var members: Table<Value>
    var flat: Table<Value>

    constructor (members: Table<Value>)
      ensures this.members == members && supers == [] && subs == {} && flat == map[]
    {
      this.members := members;
      supers, subs, flat := [], {}, map[];
    }

    method AddSubclass(c: CachedClass)
      modifies this`subs
      ensures subs == old(subs) + {c}
    {
      subs := subs + {c};
    }

    method RemoveSubclass(c: CachedClass)
      modifies this`subs
      ensures subs == old(subs) - {c}
    {
      subs := subs - {c};
    }

    method Detach(ghost world: set<CachedClass>)
      requires forall s :: s in supers ==> s in world
      modifies world`subs
      ensures forall c :: c in world && c in supers ==> c.subs == old(c.subs) - {this}
      ensures forall c :: c in world && c !in supers ==> c.subs == old(c.subs)
    {
      for i := 0 to |supers|
        invariant forall c :: c in world && c in supers[..i] ==> c.subs == old(c.subs) - {this}
        invariant forall c :: c in world && c !in supers[..i] ==> c.subs == old(c.subs)
      {
        assert supers[..i + 1] == supers[..i] + [supers[i]];
        supers[i].RemoveSubclass(this);
      }
      assert supers[..|supers|] == supers;
    }

    method Attach(ghost world: set<CachedClass>)
      requires forall s :: s in supers ==> s in world
      modifies world`subs
      ensures forall c :: c in world && c in supers ==> c.subs == old(c.subs) + {this}
      ensures forall c :: c in world && c !in supers ==> c.subs == old(c.subs)
    {
      for i := 0 to |supers|
        invariant forall c :: c in world && c in supers[..i] ==> c.subs == old(c.subs) + {this}
        invariant forall c :: c in world && c !in supers[..i] ==> c.subs == old(c.subs)
      {
        assert supers[..i + 1] == supers[..i] + [supers[i]];
        supers[i].AddSubclass(this);
      }
      assert supers[..|supers|] == supers;
    }

    method Move(parents: seq<CachedClass>, ghost world: set<CachedClass>)
      requires forall s :: s in supers || s in parents ==> s in world
      modifies this`supers, world`subs
      ensures supers == parents
      ensures forall c :: c in world ==> c.subs - {this} == old(c.subs) - {this}
      ensures forall c :: c in world ==>
                (this in c.subs <==> c in parents || (this in old(c.subs) && c !in old(supers)))
    {
      Detach(world);
      supers := parents;
      Attach(world);
    }

    /** Moves the class under new superclasses; the subclass links stay the inverse of the superclass links. */
    method UpdateHierarchy(parents: seq<CachedClass>, ghost world: set<CachedClass>)
      requires this in world && (forall s :: s in supers || s in parents ==> s in world)
      requires Inverse<CachedClass>(SupersOf(world), SubsOf(world))
      modifies this`supers, world`subs
      ensures supers == parents
      ensures SupersOf(world) == old(SupersOf(world))[this := parents]
      ensures Inverse<CachedClass>(SupersOf(world), SubsOf(world))
    {
      ghost var supers0, subs0 := SupersOf(world), SubsOf(world);
      Move(parents, world);
      SnapshotsMoved(world, this, supers0, subs0);
    }

    /** Rebuilds the table from the superclasses, the first one last so that it wins, and the own members on top. */
    method UpdateMembers(ghost flats: map<CachedClass, Table<Value>>)
      requires this !in supers && forall s :: s in supers ==> s in flats && s.flat == flats[s]
      modifies this`flat
      ensures forall name :: Get(flat, name) ==
                if name in members then Some(members[name]) else FirstMatch<CachedClass, Value>(supers, flats, name)
    {
      flat := map[];
      var i := |supers|;
      while i > 0
        invariant 0 <= i <= |supers|
        invariant forall s :: s in supers ==> s.flat == flats[s]
        invariant forall name :: Get(flat, name) == FirstMatch<CachedClass, Value>(supers[i..], flats, name)
      {
        i := i - 1;
        assert supers[i..] == [supers[i]] + supers[i + 1..];
        flat := flat + supers[i].flat;
      }
      assert supers[0..] == supers;
      flat := flat + members;
    }

    /**
      Walks the class and its subclasses breadth first and rebuilds each table.  `order`, the classes in the
      order of the walk `qs`, has every class at or below this one exactly once.  When it meets superclasses first,
      as it does where the paths down to each of them are equally long, the walk leaves every table right.
     */
    method UpdateInheritance(ghost world: set<CachedClass>, ghost rank: map<CachedClass, nat>)
      returns (ghost order: seq<CachedClass>, ghost qs: seq<seq<CachedClass>>)
      requires this in world && Hierarchy(world, rank)
      modifies world`flat
      ensures Hierarchy(world, rank) && SupersOf(world) == old(SupersOf(world))
      ensures Finished<CachedClass>(SubsOf(world), this, qs) && order == Order(qs)
      ensures FlatOf(world) ==
              Swept<CachedClass, Value>(SupersOf(world), MembersOf(world), old(FlatOf(world)), order, |order|)
      ensures EachOnce(world, rank, this, order)
      ensures forall c :: c in world && c !in order ==> c.flat == old(c.flat)
      ensures EqualWays<CachedClass>(SupersOf(world), rank, this) ==> SupersFirst(world, rank, this, order)
      ensures SupersFirst(world, rank, this, order) && old(LinkedOutside(world, rank, this)) ==> Cached(world, rank)
    {
      ghost var supers0, members0, flat0 := SupersOf(world), MembersOf(world), FlatOf(world);
      ghost var below, via := ConeBelow<CachedClass>(supers0, rank, this);
      ghost var r := Region<CachedClass>.Region(supers0, SubsOf(world), rank, this, below, via);
      qs := WalkAll(this, world, r, members0, flat0);
      order := Order(qs);
      ShapeIs(world, r, members0, SweptBy(r, members0, flat0, order, |order|));
      r.WalkMeets(qs);
      r.WalkLeaves<Value>(members0, flat0, qs);
    }

    /**
      Redefines the class under `parents`, none of them at or below it: the hierarchy stays acyclic, every class at or
      below this one is rebuilt once, in the order of the walk `qs`, and on a levelled hierarchy every table is right
      again.
     */
    method Redefine(parents: seq<CachedClass>, ghost world: set<CachedClass>, ghost rank: map<CachedClass, nat>)
      returns (ghost rank': map<CachedClass, nat>, ghost order: seq<CachedClass>, ghost qs: seq<seq<CachedClass>>)
      requires this in world && Hierarchy(world, rank)
      requires forall s :: s in parents ==> s in world && !SubclassOf<CachedClass>(SupersOf(world), rank, s, this)
      modifies this`supers, world`subs, world`flat
      ensures supers == parents
      ensures Finished<CachedClass>(SubsOf(world), this, qs) && order == Order(qs)
      ensures FlatOf(world) ==
              Swept<CachedClass, Value>(SupersOf(world), MembersOf(world), old(FlatOf(world)), order, |order|)
      ensures SupersOf(world) == old(SupersOf(world))[this := parents] && Hierarchy(world, rank')
      ensures EachOnce(world, rank', this, order)
      ensures forall c :: c in world && c !in order ==> c.flat == old(c.flat)
      ensures EqualWays<CachedClass>(SupersOf(world), rank', this) ==> SupersFirst(world, rank', this, order)
      ensures SupersFirst(world, rank', this, order) && old(LinkedOutside(world, rank, this)) ==> Cached(world, rank')
    {
      rank' := Relink(parents, world, rank);
      assert forall c :: c in world ==> c.flat == old(c.flat);
      assert FlatOf(world) == old(FlatOf(world));
      order, qs := UpdateInheritance(world, rank');
    }

    /** The same, without the walk. */
    method Reparent(parents: seq<CachedClass>, ghost world: set<CachedClass>, ghost rank: map<CachedClass, nat>)
      returns (ghost rank': map<CachedClass, nat>, ghost order: seq<CachedClass>)
      requires this in world && Hierarchy(world, rank)
      requires forall s :: s in parents ==> s in world && !SubclassOf<CachedClass>(SupersOf(world), rank, s, this)
      modifies this`supers, world`subs, world`flat
      ensures supers == parents
      ensures SupersOf(world) == old(SupersOf(world))[this := parents] && Hierarchy(world, rank')
      ensures EachOnce(world, rank', this, order)
      ensures forall c :: c in world && c !in order ==> c.flat == old(c.flat)
      ensures EqualWays<CachedClass>(SupersOf(world), rank', this) ==> SupersFirst(world, rank', this, order)
      ensures SupersFirst(world, rank', this, order) && old(LinkedOutside(world, rank, this)) ==> Cached(world, rank')
    {
      ghost var qs;
      rank', order, qs := Redefine(parents, world, rank);
    }

    /** The links change, and the tables outside the class and its subclasses stay linked if they were. */
    method Relink(parents: seq<CachedClass>, ghost world: set<CachedClass>, ghost rank: map<CachedClass, nat>)
      returns (ghost rank': map<CachedClass, nat>)
      requires this in world && Hierarchy(world, rank)
      requires forall s :: s in parents ==> s in world && !SubclassOf<CachedClass>(SupersOf(world), rank, s, this)
      modifies this`supers, world`subs
      ensures supers == parents && SupersOf(world) == old(SupersOf(world))[this := parents] && Hierarchy(world, rank')
      ensures old(LinkedOutside(world, rank, this)) ==> LinkedOutside(world, rank', this)
    {
      ghost var supers0, members0, flats := SupersOf(world), MembersOf(world), FlatOf(world);
      rank' := Rerank<CachedClass>(supers0, rank, this);
      RerankIsRank<CachedClass>(supers0, rank, this, parents);
      UpdateHierarchy(parents, world);
      ghost var supers' := SupersOf(world);
      SameTables(world, members0, flats);
      if old(LinkedOutside(world, rank, this)) {
        forall c | c in supers' && !SubclassOf<CachedClass>(supers', rank', c, this)
          ensures LinkedForAll<CachedClass, Value>(supers', members0, flats, c)
        {
          OutsideStaysLinked<CachedClass, Value>(supers0, rank, members0, flats, this, parents, rank', c, supers');
        }
      }
    }

    /** The value of the first superclass whose table has the name. */
    method InheritedValue(name: string, ghost flats: map<CachedClass, Table<Value>>) returns (r: Option<Value>)
      requires forall s :: s in supers ==> s in flats && s.flat == flats[s]
      ensures r == FirstMatch<CachedClass, Value>(supers, flats, name)
    {
      for i := 0 to |supers|
        invariant FirstMatch<CachedClass, Value>(supers[i..], flats, name)
               == FirstMatch<CachedClass, Value>(supers, flats, name)
      {
        if name in supers[i].flat {
          return Some(supers[i].flat[name]);
        }
        assert supers[i..][1..] == supers[i + 1..];
      }
      return None;
    }

    /** One class taken off the queue: unless it has its own member, it takes what its first superclass has. */
    method Inherit(name: string, ghost flats: map<CachedClass, Table<Value>>) returns (changed: bool)
      requires this !in supers && forall s :: s in supers ==> s in flats && s.flat == flats[s]
      modifies this`flat
      ensures changed ==> name !in members && FirstMatch<CachedClass, Value>(supers, flats, name).Some?
      ensures changed ==> flat == old(flat)[name := FirstMatch<CachedClass, Value>(supers, flats, name).value]
      ensures !changed ==> flat == old(flat)
      ensures !changed && name !in members ==>
                var inherited := FirstMatch<CachedClass, Value>(supers, flats, name);
                inherited.Some? ==> Get(flat, name) == inherited
    {
      changed := false;
      if name !in members {
        var inherited := InheritedValue(name, flats);
        if inherited.Some? && inherited != Get(flat, name) {
          flat := flat[name := inherited.value];
          changed := true;
        }
      }
    }

    /** Assigns a member, `None` for nil, and propagates it to the subclasses through the work queue. */
    method UpdateField(name: string, member: Option<Value>, ghost world: set<CachedClass>,
                       ghost rank: map<CachedClass, nat>)
      returns (previous: Option<Value>)
      requires name != INDEX && this in world
      requires Hierarchy(world, rank)
      modifies this`members, world`flat
      ensures Hierarchy(world, rank)
      ensures previous == old(Get(flat, name)) && members == Put(old(members), name, member)
      ensures forall c, n :: c in world && n != name ==> Get(c.flat, n) == old(Get(c.flat, n))
      ensures old(Cached(world, rank)) ==>
                (Cached(world, rank) <==>
                 member.Some?
                 || old(ClearingKeepsCache<CachedClass, Value>(SupersOf(world), SubsOf(world), MembersOf(world),
                                                               FlatOf(world), this, name)))
    {
      ghost var supers0, subs0, members0, before := SupersOf(world), SubsOf(world), MembersOf(world), FlatOf(world);
      previous := Get(flat, name);
      SetOwn(name, member);
      var queue := EnqueueAll([], subs);
      Spread(name, member, queue, world, rank, supers0, subs0, members0, before);
    }

    /** From the assignment in the class itself to right tables below it. */
    method Spread(name: string, ghost member: Option<Value>, queue: seq<CachedClass>,
                  ghost world: set<CachedClass>, ghost rank: map<CachedClass, nat>,
                  ghost supers0: map<CachedClass, seq<CachedClass>>, ghost subs0: map<CachedClass, set<CachedClass>>,
                  ghost members0: map<CachedClass, Table<Value>>, ghost before: map<CachedClass, Table<Value>>)
      requires supers0.Keys == subs0.Keys == members0.Keys == before.Keys == world && this in world
      requires Ranked<CachedClass>(supers0, rank) && Inverse<CachedClass>(supers0, subs0)
      requires forall c :: c in world ==> c.supers == supers0[c] && c.subs == subs0[c]
      requires forall c :: c in world && c != this ==> c.members == members0[c] && c.flat == before[c]
      requires members == Put(members0[this], name, member) && flat == Put(before[this], name, member)
      requires forall c :: c in queue <==> c in subs
      modifies world`flat
      ensures SupersOf(world) == supers0 && SubsOf(world) == subs0
      ensures forall c, n :: c in world && n != name ==> Get(c.flat, n) == Get(before[c], n)
      ensures Coherent<CachedClass, Value>(supers0, rank, members0, before) ==>
                (Coherent<CachedClass, Value>(supers0, rank, MembersOf(world), FlatOf(world)) <==>
                 member.Some? || ClearingKeepsCache<CachedClass, Value>(supers0, subs0, members0, before, this, name))
    {
      ghost var a := Assign<CachedClass, Value>(supers0, subs0, rank, members0, before, this, name, member);
      ghost var flats := before[this := Put(before[this], name, member)];
      a.UnderwayStarts(flats, queue);
      flats := Propagate(name, queue, world, a, flats);
      if a.Valid() {
        a.ProgressEnds(flats);
      }
      SnapshotIs(world, a, flats);
    }

    method SetOwn(name: string, member: Option<Value>)
      modifies this`members, this`flat
      ensures members == Put(old(members), name, member) && flat == Put(old(flat), name, member)
    {
      members := Put(members, name, member);
      flat := Put(flat, name, member);
    }
  }

  method Step(current: CachedClass, name: string, ghost world: set<CachedClass>,
              ghost a: Assignment<CachedClass, Value>, ghost flats: map<CachedClass, Table<Value>>)
    returns (changed: bool, ghost flats': map<CachedClass, Table<Value>>)
    requires Snapshot(world, a, flats) && current in world
    requires current !in a.supers[current] && forall s :: s in a.supers[current] ==> s in world
    modifies current`flat
    ensures Snapshot(world, a, flats')
    ensures var inherited := FirstMatch<CachedClass, Value>(a.supers[current], flats, name);
            if changed then
              name !in a.members[current] && inherited.Some?
              && flats' == flats[current := flats[current][name := inherited.value]]
            else
              flats' == flats
              && (name !in a.members[current] && inherited.Some? ==> Get(flats[current], name) == inherited)
  {
    changed := current.Inherit(name, flats);
    flats' := flats[current := current.flat];
  }

  /** The work queue of an assignment: classes take what they inherit until nothing changes any more. */
  method Propagate(name: string, start: seq<CachedClass>, ghost world: set<CachedClass>,
                   ghost a: Assignment<CachedClass, Value>, ghost flats0: map<CachedClass, Table<Value>>)
    returns (ghost flats: map<CachedClass, Table<Value>>)
    requires a.WellFormed() && a.name == name && a.Underway(flats0, start) && Snapshot(world, a, flats0)
    modifies world`flat
    ensures Snapshot(world, a, flats) && a.Underway(flats, [])
  {
    ghost var top := Top(a.rank);
    var queue := start;
    flats := flats0;
    while queue != []
      invariant Snapshot(world, a, flats)
      invariant a.Underway(flats, queue)
      decreases QueueWeight<CachedClass>(a.subs, a.rank, top, queue)
    {
      var current := queue[0];
      assert current in queue && current !in a.supers[current];
      ghost var flats' := flats;
      var waiting := queue;
      var changed;
      changed, flats := Step(current, name, world, a, flats);
      if changed {
        queue := Requeue(waiting, current.subs, a.subs, a.rank, top);
        a.UnderwayUpdates(flats', flats, waiting, queue);
      } else {
        queue := queue[1..];
        a.UnderwaySkips(flats, waiting);
      }
    }
  }

  /** A class without superclasses and without a table joins. */
  method Introduce(members: Table<Value>, ghost world: set<CachedClass>, ghost rank: map<CachedClass, nat>)
    returns (c: CachedClass)
    requires Hierarchy(world, rank)
    ensures fresh(c) && c.supers == [] && c.members == members && Hierarchy(world + {c}, rank[c := 0])
    ensures old(Cached(world, rank)) ==> LinkedOutside(world + {c}, rank[c := 0], c)
    ensures forall x :: x in world ==> c !in x.supers
    ensures forall x :: x in world ==> !SubclassOf<CachedClass>(SupersOf(world + {c}), rank[c := 0], x, c)
  {
    c := new CachedClass(members);
    assert old(Cached(world, rank)) ==> Cached(world, rank);
    FreshClassFits(world, rank, c);
  }

  lemma LeafIsRebuiltAlone(world: set<CachedClass>, rank: map<CachedClass, nat>, c: CachedClass,
                           order: seq<CachedClass>)
    requires c in world && Hierarchy(world, rank) && EachOnce(world, rank, c, order)
    requires forall x :: x in world ==> c !in x.supers
    ensures EqualWays<CachedClass>(SupersOf(world), rank, c) && forall x :: x in world && x != c ==> x !in order
  {
    LeafHasEqualWays<CachedClass>(SupersOf(world), rank, c, rank);
  }

  /** A class with no subclasses gets its superclasses and its table. */
  method Place(c: CachedClass, parents: seq<CachedClass>, ghost world: set<CachedClass>,
               ghost rank: map<CachedClass, nat>)
    returns (ghost rank': map<CachedClass, nat>)
    requires c in world && Hierarchy(world, rank) && c !in parents && (forall s :: s in parents ==> s in world)
    requires forall x :: x in world ==> c !in x.supers
    requires forall x :: x in world && x != c ==> !SubclassOf<CachedClass>(SupersOf(world), rank, x, c)
    modifies c`supers, world`subs, world`flat
    ensures c.supers == parents && Hierarchy(world, rank')
    ensures old(LinkedOutside(world, rank, c)) ==> Cached(world, rank')
    ensures forall x :: x in world && x != c ==> x.flat == old(x.flat)
  {
    ghost var order;
    rank', order := c.Reparent(parents, world, rank);
    LeafIsRebuiltAlone(world, rank', c, order);
  }

  /** `class` for a new class: the hierarchy stays one, and if every table was right, every table is. */
  method DefineClass(members: Table<Value>, parents: seq<CachedClass>, ghost world: set<CachedClass>,
                     ghost rank: map<CachedClass, nat>)
    returns (c: CachedClass, ghost world': set<CachedClass>, ghost rank': map<CachedClass, nat>)
    requires Hierarchy(world, rank)
    requires forall s :: s in parents ==> s in world
    modifies world`subs, world`flat
    ensures fresh(c) && world' == world + {c}
    ensures c.members == members && c.supers == parents
    ensures Hierarchy(world', rank')
    ensures old(Cached(world, rank)) ==> Cached(world', rank')
    ensures forall x :: x in world ==> x.flat == old(x.flat)
  {
    c := Introduce(members, world, rank);
    world' := world + {c};
    rank' := Place(c, parents, world', rank[c := 0]);
  }
}
