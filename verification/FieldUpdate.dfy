/**
  What the work queue of a field assignment keeps, on snapshots of the class graph.
*/
module FieldUpdate {
  import opened Wrappers

  import opened ClassGraph

  /**
    When clearing `name` in `self` leaves no stale or missing entry: there was none to clear, or no
    superclass of `self` has one to show through and every direct subclass has another source.
   */
  ghost predicate ClearingKeepsCache<C, V>(supers: map<C, seq<C>>, subs: map<C, set<C>>, members: map<C, Table<V>>,
                                           flat: map<C, Table<V>>, self: C, name: string)
    requires members.Keys == flat.Keys == supers.Keys && self in supers && Inverse(supers, subs)
  {
    name in flat[self] ==>
      && (forall s :: s in supers[self] ==> name !in flat[s])
      && (forall c :: c in subs[self] ==>
            name in members[c] || exists s :: s in supers[c] && s != self && name in flat[s])
  }

  /**
    The assignment of `member` to `name` in the class `self`, `None` standing for nil: `before` holds the
    tables and `members0` the member tables it starts from, `members` the member tables it leaves.
   */
  datatype Assignment<C(==), V> = Assignment(
    supers: map<C, seq<C>>, subs: map<C, set<C>>, rank: map<C, nat>,
    members0: map<C, Table<V>>, members: map<C, Table<V>>, before: map<C, Table<V>>,
    self: C, name: string, member: Option<V>)
  {
    ghost predicate WellFormed() {
      && Ranked(supers, rank) && Inverse(supers, subs)
      && members0.Keys == members.Keys == before.Keys == supers.Keys
      && self in supers
      && (forall c :: c in supers && c != self ==> members[c] == members0[c])
      && (forall n :: n != name ==> Get(members[self], n) == Get(members0[self], n))
      && Get(members[self], name) == member
    }

    /** The tables were right before the assignment. */
    ghost predicate Valid() {
      WellFormed() && Coherent(supers, rank, members0, before)
    }

    /** Entries for the name were linked before the assignment: all that the queue relies on. */
    ghost predicate Started() {
      WellFormed() && forall c {:trigger Linked(supers, members0, before, c, name)} :: c in supers ==>
                          Linked(supers, members0, before, c, name)
    }

    lemma ValidIsStarted()
      requires Valid()
      ensures Started()
    {
      assert CoherentAt(supers, rank, members0, before, name);
      CoherentIffLinked(supers, rank, members0, before, name);
    }

    /** A class that is up to date: its own member, or what its first superclass with the name has. */
    ghost predicate Settled(flat: map<C, Table<V>>, c: C)
      requires WellFormed() && flat.Keys == supers.Keys && c in supers
    {
      if name in members[c] then Get(flat[c], name) == Some(members[c][name])
      else
        var inherited := FirstMatch(supers[c], flat, name);
        inherited.Some? ==> Get(flat[c], name) == inherited
    }

    /** Entries other than the one in `self` never disappear, and appear only below an assigned value. */
    ghost predicate Present(flat: map<C, Table<V>>, c: C)
      requires WellFormed() && flat.Keys == supers.Keys && c in supers
    {
      && (name in before[c] ==> name in flat[c])
      && (member.None? && name in flat[c] ==> name in before[c])
      && (name in members[c] ==> Get(flat[c], name) == Some(members[c][name]))
      && (member.Some? && name in flat[c] && name !in members[c] ==> FirstMatch(supers[c], flat, name).Some?)
    }

    /** `flat'` differs from `flat` only in the entry for the name in `c`, now the inherited one. */
    ghost predicate Copied(flat: map<C, Table<V>>, flat': map<C, Table<V>>, c: C)
      requires flat.Keys == supers.Keys && c in supers && forall s :: s in supers[c] ==> s in supers
    {
      && flat'.Keys == flat.Keys
      && (forall x :: x in flat && x != c ==> flat'[x] == flat[x])
      && Get(flat'[c], name) == FirstMatch(supers[c], flat, name)
      && (forall n :: n != name ==> Get(flat'[c], n) == Get(flat[c], n))
    }

    /** From whatever tables: the classes queued are below, and no entry of another name has moved. */
    ghost predicate Queued(flat: map<C, Table<V>>, queue: seq<C>)
      requires WellFormed()
    {
      && flat.Keys == supers.Keys
      && Get(flat[self], name) == member
      && (forall c, n {:trigger Get(flat[c], n)} :: c in supers && n != name ==> Get(flat[c], n) == Get(before[c], n))
      && (forall c :: c in queue ==> c in supers && rank[self] < rank[c])
    }

    /** The invariant of the queue from right tables: every class that is not waiting in it is settled. */
    ghost predicate Progress(flat: map<C, Table<V>>, queue: seq<C>)
      requires WellFormed()
    {
      && Queued(flat, queue)
      && (forall c {:trigger Present(flat, c)} :: c in supers && c != self ==> Present(flat, c))
      && (forall c {:trigger Settled(flat, c)} :: c in supers && c != self && c !in queue ==> Settled(flat, c))
    }

    ghost predicate ClearingIsSafe()
      requires WellFormed()
    {
      ClearingKeepsCache(supers, subs, members0, before, self, name)
    }

    lemma WasLinked(c: C, n: string)
      requires Valid() && c in supers
      ensures Linked(supers, members0, before, c, n)
    {
      assert CoherentAt(supers, rank, members0, before, n);
      CoherentIffLinked(supers, rank, members0, before, n);
    }

    lemma ProgressStarts(flat: map<C, Table<V>>, queue: seq<C>)
      requires Started()
      requires flat == before[self := Put(before[self], name, member)]
      requires forall c :: c in queue <==> c in subs[self]
      ensures Progress(flat, queue)
    {
      forall c | c in supers && c != self ensures Present(flat, c) && (c !in queue ==> Settled(flat, c)) {
        assert Linked(supers, members0, before, c, name);
        FirstMatchFinds(supers[c], flat, name);
        if self !in supers[c] {
          FirstMatchSame(supers[c], before, flat, name);
        }
      }
    }

    lemma QueuedStarts(flat: map<C, Table<V>>, queue: seq<C>)
      requires WellFormed()
      requires flat == before[self := Put(before[self], name, member)]
      requires forall c :: c in queue <==> c in subs[self]
      ensures Queued(flat, queue)
    {
      assert forall c :: c in queue ==> self in supers[c];
    }

    lemma QueuedUpdates(flat: map<C, Table<V>>, flat': map<C, Table<V>>, queue: seq<C>, queue': seq<C>)
      requires WellFormed() && queue != [] && Queued(flat, queue)
      requires queue[0] in supers && Copied(flat, flat', queue[0])
      requires forall c :: c in queue' <==> c in queue[1..] || c in subs[queue[0]]
      ensures Queued(flat', queue')
    {
      assert queue[0] in queue;
      forall c | c in queue' ensures c in supers && rank[self] < rank[c] {
        assert c in queue[1..] || queue[0] in supers[c];
      }
    }

    /** Taking a settled class off the queue. */
    lemma ProgressSkips(flat: map<C, Table<V>>, queue: seq<C>)
      requires WellFormed()
      requires queue != [] && Progress(flat, queue) && (name !in members[queue[0]] ==> Settled(flat, queue[0]))
      ensures Progress(flat, queue[1..])
    {
      assert queue[0] in queue && Present(flat, queue[0]);
      forall c | c in supers && c != self && c !in queue[1..] ensures Settled(flat, c) {
        assert c in queue ==> c == queue[0];
      }
    }

    lemma CopyIsCopied(flat: map<C, Table<V>>, flat': map<C, Table<V>>, c: C)
      requires flat.Keys == supers.Keys && c in supers && forall s :: s in supers[c] ==> s in supers
      requires FirstMatch(supers[c], flat, name).Some?
      requires flat' == flat[c := flat[c][name := FirstMatch(supers[c], flat, name).value]]
      ensures Copied(flat, flat', c)
    {
    }

    /** Copying the superclass's value into a waiting class and queueing its subclasses. */
    lemma ProgressUpdates(flat: map<C, Table<V>>, flat': map<C, Table<V>>, queue: seq<C>, queue': seq<C>)
      requires Started()
      requires queue != [] && Progress(flat, queue)
      requires name !in members[queue[0]] && FirstMatch(supers[queue[0]], flat, name).Some?
      requires Copied(flat, flat', queue[0])
      requires forall c :: c in queue' <==> c in queue[1..] || c in subs[queue[0]]
      ensures Progress(flat', queue')
    {
      assert queue[0] in queue && queue[0] !in supers[queue[0]];
      QueuedUpdates(flat, flat', queue, queue');
      PresentForAll(flat, flat', queue);
      SettledForAll(flat, flat', queue, queue');
    }

    /** The loop invariant: from right tables, that of the queue. */
    ghost predicate Underway(flat: map<C, Table<V>>, queue: seq<C>)
      requires WellFormed()
    {
      Queued(flat, queue) && (Valid() ==> Progress(flat, queue))
    }

    lemma UnderwayStarts(flat: map<C, Table<V>>, queue: seq<C>)
      requires WellFormed()
      requires flat == before[self := Put(before[self], name, member)]
      requires forall c :: c in queue <==> c in subs[self]
      ensures Underway(flat, queue)
    {
      QueuedStarts(flat, queue);
      if Valid() {
        ValidIsStarted();
        ProgressStarts(flat, queue);
      }
    }

    lemma UnderwaySkips(flat: map<C, Table<V>>, queue: seq<C>)
      requires WellFormed() && queue != [] && Underway(flat, queue) && queue[0] in supers
      requires name !in members[queue[0]] ==> Settled(flat, queue[0])
      ensures Underway(flat, queue[1..])
    {
      if Valid() {
        ProgressSkips(flat, queue);
      }
    }

    lemma UnderwayUpdates(flat: map<C, Table<V>>, flat': map<C, Table<V>>, queue: seq<C>, queue': seq<C>)
      requires WellFormed() && queue != [] && Underway(flat, queue) && queue[0] in supers
      requires name !in members[queue[0]] && FirstMatch(supers[queue[0]], flat, name).Some?
      requires flat' == flat[queue[0] := flat[queue[0]][name := FirstMatch(supers[queue[0]], flat, name).value]]
      requires forall c :: c in queue' <==> c in queue[1..] || c in subs[queue[0]]
      ensures Underway(flat', queue')
    {
      CopyIsCopied(flat, flat', queue[0]);
      QueuedUpdates(flat, flat', queue, queue');
      if Valid() {
        ValidIsStarted();
        ProgressUpdates(flat, flat', queue, queue');
      }
    }

    lemma SettledForAll(flat: map<C, Table<V>>, flat': map<C, Table<V>>, queue: seq<C>, queue': seq<C>)
      requires WellFormed() && queue != [] && Progress(flat, queue)
      requires queue[0] in supers && name !in members[queue[0]] && FirstMatch(supers[queue[0]], flat, name).Some?
      requires Copied(flat, flat', queue[0])
      requires forall c :: c in queue' <==> c in queue[1..] || c in subs[queue[0]]
      ensures forall c :: c in supers && c != self && c !in queue' ==> Settled(flat', c)
    {
      assert queue[0] !in supers[queue[0]];
      forall c | c in supers && c != self && c !in queue' ensures Settled(flat', c) {
        SettledKept(flat, flat', queue[0], queue, c);
      }
    }

    lemma PresentForAll(flat: map<C, Table<V>>, flat': map<C, Table<V>>, queue: seq<C>)
      requires Started() && queue != [] && Progress(flat, queue)
      requires name !in members[queue[0]] && FirstMatch(supers[queue[0]], flat, name).Some?
      requires Copied(flat, flat', queue[0])
      ensures forall c :: c in supers && c != self ==> Present(flat', c)
    {
      var current := queue[0];
      assert current in queue;
      FirstMatchFinds(supers[current], flat, name);
      var s :| s in supers[current] && name in flat[s];
      forall c | c in supers && c != self ensures Present(flat', c) {
        PresentKept(flat, flat', current, s, c);
      }
    }

    /** A table entry found in the superclass `s` of `current` is copied; nothing else moves. */
    lemma PresentKept(flat: map<C, Table<V>>, flat': map<C, Table<V>>, current: C, s: C, c: C)
      requires Started() && current in supers && current != self && flat.Keys == supers.Keys
      requires s in supers[current] && name in flat[s] && (s == self ==> member.Some?)
      requires s != self ==> Present(flat, s)
      requires name !in members[current] && Copied(flat, flat', current)
      requires FirstMatch(supers[current], flat, name).Some?
      requires c in supers && c != self && Present(flat, c)
      ensures Present(flat', c)
    {
      FirstMatchFinds(supers[c], flat, name);
      FirstMatchFinds(supers[c], flat', name);
      if c == current {
        assert name in flat'[s];
        FirstMatchFinds(supers[c], before, name);
        assert Linked(supers, members0, before, c, name);
      }
    }

    lemma SettledKept(flat: map<C, Table<V>>, flat': map<C, Table<V>>, current: C, queue: seq<C>, c: C)
      requires WellFormed() && current in supers && current !in supers[current] && flat.Keys == supers.Keys
      requires FirstMatch(supers[current], flat, name).Some? && name !in members[current]
      requires Copied(flat, flat', current)
      requires queue != [] && queue[0] == current
      requires c in supers && c !in queue[1..] && c !in subs[current]
      requires c !in queue ==> Settled(flat, c)
      ensures Settled(flat', c)
    {
      FirstMatchSame(supers[c], flat, flat', name);
      assert c in queue ==> c == current;
    }

    /**
      With the queue empty, the tables are right everywhere exactly when a value was assigned or the clearing was
      safe.
     */
    lemma ProgressEnds(flat: map<C, Table<V>>)
      requires Valid() && Progress(flat, [])
      ensures Coherent(supers, rank, members, flat) <==> member.Some? || ClearingIsSafe()
    {
      forall n: string | n != name ensures CoherentAt(supers, rank, members, flat, n) {
        OtherNameKept(flat, n);
      }
      CoherentIffLinked(supers, rank, members, flat, name);
      ValidIsStarted();
      if member.Some? || ClearingIsSafe() {
        forall c | c in supers ensures Linked(supers, members, flat, c, name) {
          EndLinked(flat, c);
        }
      } else {
        var c := EndUnlinked(flat);
      }
    }

    lemma EndLinked(flat: map<C, Table<V>>, c: C)
      requires Started() && Progress(flat, []) && (member.Some? || ClearingIsSafe()) && c in supers
      ensures Linked(supers, members, flat, c, name)
    {
      FirstMatchFinds(supers[c], before, name);
      FirstMatchFinds(supers[c], flat, name);
      assert Linked(supers, members0, before, c, name);
      if c == self {
        forall s | s in supers[self] && member.None? ensures name !in flat[s] {
          assert Present(flat, s);
        }
      } else {
        assert Present(flat, c) && Settled(flat, c);
        if member.None? && name in flat[c] && name !in members[c] {
          assert name in before[c];
          var s :| s in supers[c] && s != self && name in before[s];
          assert Present(flat, s);
        }
      }
    }

    lemma EndUnlinked(flat: map<C, Table<V>>) returns (c: C)
      requires Started() && Progress(flat, []) && member.None? && !ClearingIsSafe()
      ensures c in supers && !Linked(supers, members, flat, c, name)
    {
      FirstMatchFinds(supers[self], flat, name);
      if s :| s in supers[self] && name in before[s] {
        assert s != self && Present(flat, s) && name in flat[s];
        c := self;
      } else {
        c :| c in subs[self] && name !in members0[c] && forall s :: s in supers[c] && s != self ==> name !in before[s];
        assert c != self && self in supers[c] && Present(flat, c);
        FirstMatchFinds(supers[c], before, name);
        FirstMatchFinds(supers[c], flat, name);
        assert Linked(supers, members0, before, c, name);
        assert name in flat[c];
        forall s | s in supers[c] ensures name !in flat[s] {
          if s != self { assert Present(flat, s); }
        }
      }
    }

    lemma OtherNameKept(flat: map<C, Table<V>>, n: string)
      requires Valid() && flat.Keys == supers.Keys && n != name
      requires forall c :: c in supers ==> Get(flat[c], n) == Get(before[c], n)
      ensures CoherentAt(supers, rank, members, flat, n)
    {
      forall c | c in supers ensures Linked(supers, members, flat, c, n) {
        WasLinked(c, n);
        assert Get(members[c], n) == Get(members0[c], n);
        FirstMatchSame(supers[c], before, flat, n);
      }
      CoherentIffLinked(supers, rank, members, flat, n);
    }
  }

  /** Assigning `member` to `name` in `self`. */
  ghost function Assign<C, V>(supers: map<C, seq<C>>, subs: map<C, set<C>>, rank: map<C, nat>,
                              members: map<C, Table<V>>, flat: map<C, Table<V>>, self: C, name: string,
                              member: Option<V>): (a: Assignment<C, V>)
    requires Ranked(supers, rank) && Inverse(supers, subs) && members.Keys == flat.Keys == supers.Keys
    requires self in supers
    ensures a.WellFormed() && (Coherent(supers, rank, members, flat) ==> a.Valid())
  {
    Assignment(supers, subs, rank, members, members[self := Put(members[self], name, member)], flat, self, name, member)
  }

  /** The superclass search does not change when the tables it reads keep their entries for the name. */
  lemma {:induction false} FirstMatchSame<C, V>(list: seq<C>, flat: map<C, Table<V>>, flat': map<C, Table<V>>,
                                                name: string)
    requires forall s :: s in list ==> s in flat && s in flat' && Get(flat[s], name) == Get(flat'[s], name)
    ensures FirstMatch(list, flat, name) == FirstMatch(list, flat', name)
  {
    if list != [] {
      assert Get(flat[list[0]], name) == Get(flat'[list[0]], name);
      FirstMatchSame(list[1..], flat, flat', name);
    }
  }

  lemma FirstMatchUnchanged<C, V>(list: seq<C>, flat: map<C, Table<V>>, flat': map<C, Table<V>>)
    requires forall s :: s in list ==> s in flat && s in flat' && flat[s] == flat'[s]
    ensures forall name :: FirstMatch(list, flat, name) == FirstMatch(list, flat', name)
  {
    forall name: string ensures FirstMatch(list, flat, name) == FirstMatch(list, flat', name) {
      FirstMatchSame(list, flat, flat', name);
    }
  }

  // ---- an assignment of nil that does harm ----

  const BASE := 0
  const DERIVED := 1
  const POOL := "pool"
  const SUPERS: map<int, seq<int>> := map[BASE := [], DERIVED := [BASE]]
  const SUBS: map<int, set<int>> := map[BASE := {DERIVED}, DERIVED := {}]
  const RANK: map<int, nat> := map[BASE := 0, DERIVED := 1]
  /** Both classes define the name; their tables hold just that. */
  const OWN: map<int, Table<int>> := map[BASE := map[POOL := 1], DERIVED := map[POOL := 2]]
  /** Once the derived class is assigned nil: its member is gone, and its entry too. */
  const CLEARED: map<int, Table<int>> := map[BASE := map[POOL := 1], DERIVED := map[]]

  lemma OwnIsRight(name: string)
    ensures Ranked(SUPERS, RANK) && CoherentAt(SUPERS, RANK, OWN, OWN, name)
  {
    var parents := SUPERS[DERIVED];
    assert parents == [BASE] && parents[1..] == [];
    assert FirstMatch(parents, OWN, name) == Get(OWN[BASE], name);
    assert forall c :: c in SUPERS ==> c == BASE || c == DERIVED;
    assert Linked(SUPERS, OWN, OWN, BASE, name) && Linked(SUPERS, OWN, OWN, DERIVED, name);
    CoherentIffLinked(SUPERS, RANK, OWN, OWN, name);
  }

  lemma BaseIsFound()
    ensures Ranked(SUPERS, RANK) && Lookup(SUPERS, RANK, CLEARED, DERIVED, POOL) == Some(1)
  {
    var parents := SUPERS[DERIVED];
    assert parents == [BASE] && parents[1..] == [];
    assert Lookup(SUPERS, RANK, CLEARED, BASE, POOL) == Some(1);
    assert LookupIn(SUPERS, RANK, CLEARED, parents, 1, POOL) == Some(1);
  }

  /** The table has no entry where the lookup finds the member of the base. */
  lemma NilHidesInherited()
    ensures Ranked(SUPERS, RANK) && Inverse(SUPERS, SUBS) && Coherent(SUPERS, RANK, OWN, OWN)
    ensures !ClearingKeepsCache(SUPERS, SUBS, OWN, OWN, DERIVED, POOL)
    ensures CLEARED == OWN[DERIVED := Put(OWN[DERIVED], POOL, None)]
    ensures Get(CLEARED[DERIVED], POOL) == None && Lookup(SUPERS, RANK, CLEARED, DERIVED, POOL) == Some(1)
    ensures !Coherent(SUPERS, RANK, CLEARED, CLEARED)
  {
    forall name: string ensures CoherentAt(SUPERS, RANK, OWN, OWN, name) {
      OwnIsRight(name);
    }
    BaseIsFound();
    assert BASE in SUPERS[DERIVED];
    assert !CoherentAt(SUPERS, RANK, CLEARED, CLEARED, POOL);
  }
}
