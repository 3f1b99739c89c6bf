/**
  Redefining a class, on snapshots of the class graph: which redefinitions keep the graph
  acyclic, and why the breadth-first walk over the subclasses brings the tables up to date.
*/
module Relinking {
  import opened Wrappers

  import opened ClassGraph
  import opened FieldUpdate

  /** The rank after `self` gets new superclasses, none of them at or below it: everything below `self` is lifted. */
  ghost function Rerank<C>(supers: map<C, seq<C>>, rank: map<C, nat>, self: C): (rank': map<C, nat>)
    requires Ranked(supers, rank)
  {
    var lift := Top(rank) + 1;
    map c | c in rank :: rank[c] + if SubclassOf(supers, rank, c, self) then lift else 0
  }

  lemma RerankIsRank<C>(supers: map<C, seq<C>>, rank: map<C, nat>, self: C, parents: seq<C>)
    requires Ranked(supers, rank) && self in supers
    requires forall s :: s in parents ==> s in supers && !SubclassOf(supers, rank, s, self)
    ensures Ranked(supers[self := parents], Rerank(supers, rank, self))
  {
    var supers', rank' := supers[self := parents], Rerank(supers, rank, self);
    forall c, s | c in supers' && s in supers'[c] ensures s in supers' && rank'[s] < rank'[c] {
      if c == self {
        assert rank[s] <= Top(rank);
      } else {
        AnySubclassOfIff(supers, rank, supers[c], rank[c], self);
      }
    }
  }

  /** Paths survive a redefinition as long as they do not leave from the redefined class. */
  lemma {:induction false} SubclassKept<C>(supers: map<C, seq<C>>, rank: map<C, nat>, rank': map<C, nat>, self: C,
                                           parents: seq<C>, c: C)
    requires Ranked(supers, rank) && Ranked(supers[self := parents], rank') && self in supers && c in supers
    ensures SubclassOf(supers, rank, c, self) <==> SubclassOf(supers[self := parents], rank', c, self)
    decreases rank[c]
  {
    if c != self {
      var supers' := supers[self := parents];
      forall s | s in supers[c] ensures SubclassOf(supers, rank, s, self) <==> SubclassOf(supers', rank', s, self) {
        SubclassKept(supers, rank, rank', self, parents, s);
      }
      AnySubclassOfIff(supers, rank, supers[c], rank[c], self);
      AnySubclassOfIff(supers', rank', supers[c], rank'[c], self);
    }
  }

  lemma {:induction false} SubclassRank<C>(supers: map<C, seq<C>>, rank: map<C, nat>, c: C, super: C)
    requires Ranked(supers, rank) && c in supers && super in supers && SubclassOf(supers, rank, c, super)
    ensures c == super || rank[super] < rank[c]
    decreases rank[c]
  {
    if c != super {
      AnySubclassOfIff(supers, rank, supers[c], rank[c], super);
      var s :| s in supers[c] && SubclassOf(supers, rank, s, super);
      SubclassRank(supers, rank, s, super);
    }
  }

  /** A redefinition keeps the hierarchy acyclic exactly when no new superclass is the class itself or below it. */
  lemma RedefinitionAcyclicIff<C(!new)>(supers: map<C, seq<C>>, rank: map<C, nat>, self: C, parents: seq<C>,
                                           supers': map<C, seq<C>>)
    requires Ranked(supers, rank) && self in supers && forall s :: s in parents ==> s in supers
    requires supers' == supers[self := parents]
    ensures (forall s :: s in parents ==> !SubclassOf(supers, rank, s, self)) <==>
            exists rank' :: Ranked(supers', rank')
  {
    if forall s :: s in parents ==> !SubclassOf(supers, rank, s, self) {
      RerankIsRank(supers, rank, self, parents);
    } else {
      var s :| s in parents && SubclassOf(supers, rank, s, self);
      forall rank' | Ranked(supers', rank') ensures false {
        SubclassKept(supers, rank, rank', self, parents, s);
        assert s in supers'[self];
        SubclassRank(supers', rank', s, self);
      }
    }
  }

  /** Leaving every old superclass and then entering every new one keeps the subclass links exact. */
  lemma RelinkedInverse<C>(supers: map<C, seq<C>>, subs: map<C, set<C>>, self: C, parents: seq<C>,
                           subs': map<C, set<C>>)
    requires Inverse(supers, subs) && self in supers && subs'.Keys == subs.Keys
    requires forall s :: s in parents ==> s in supers
    requires forall c :: c in subs ==> subs'[c] - {self} == subs[c] - {self}
    requires forall c :: c in subs ==>
               (self in subs'[c] <==> c in parents || (self in subs[c] && c !in supers[self]))
    ensures Inverse(supers[self := parents], subs')
  {
    var supers' := supers[self := parents];
    forall c, s {:trigger s in subs'[c]} | c in subs' && s in subs'[c] ensures s in supers' && c in supers'[s] {
      if s != self {
        assert s in subs'[c] - {self} && s in subs[c];
      }
    }
    forall c, s {:trigger s in supers'[c]} | c in supers' && s in supers'[c] ensures s in subs' && c in subs'[s] {
      if c != self {
        assert s in supers[c] && c in subs[s] - {self} && c in subs'[s] - {self};
      }
    }
  }

  // ---- the breadth-first walk ----

  /** `below` is closed under taking subclasses, and `via` leads from each of its classes back up to `self`. */
  ghost predicate Cone<C>(supers: map<C, seq<C>>, self: C, below: set<C>, via: map<C, C>) {
    && self in below && below <= supers.Keys && via.Keys == below - {self}
    && (forall c, s {:trigger s in supers[c]} :: c in supers && s in supers[c] && s in below ==> c in below)
    && (forall c {:trigger via[c]} :: c in via ==> via[c] in supers[c] && via[c] in below)
  }

  /** What is at or below a class, as `subclassof` decides it, is such a cone. */
  lemma ConeBelow<C>(supers: map<C, seq<C>>, rank: map<C, nat>, self: C) returns (below: set<C>, via: map<C, C>)
    requires Ranked(supers, rank) && self in supers
    ensures Cone(supers, self, below, via)
    ensures forall c :: c in below <==> c in supers && SubclassOf(supers, rank, c, self)
  {
    below := set c | c in supers && SubclassOf(supers, rank, c, self);
    forall c | c in below && c != self ensures exists s :: s in supers[c] && s in below {
      AnySubclassOfIff(supers, rank, supers[c], rank[c], self);
    }
    via := map c | c in below && c != self :: var s :| s in supers[c] && s in below; s;
    forall c, s {:trigger s in supers[c]} | c in supers && s in supers[c] && s in below ensures c in below {
      AnySubclassOfIff(supers, rank, supers[c], rank[c], self);
    }
  }

  /** `order` starts at `self`, has no repeats, and its first `done` classes have had their subclasses queued. */
  ghost predicate Walk<C>(subs: map<C, set<C>>, self: C, below: set<C>, order: seq<C>, done: nat)
    requires below <= subs.Keys
  {
    && order != [] && order[0] == self && done <= |order|
    && (forall i, j :: 0 <= i < j < |order| ==> order[i] != order[j])
    && (forall i :: 0 <= i < |order| ==> order[i] in below)
    && (forall i, s {:trigger s in subs[order[i]]} :: 0 <= i < done && s in subs[order[i]] ==> s in order)
  }

  lemma WalkStep<C>(supers: map<C, seq<C>>, subs: map<C, set<C>>, self: C, below: set<C>, via: map<C, C>,
                    order: seq<C>, done: nat, added: seq<C>)
    requires Inverse(supers, subs) && Cone(supers, self, below, via)
    requires Walk(subs, self, below, order, done) && done < |order|
    requires forall i, j :: 0 <= i < j < |added| ==> added[i] != added[j]
    requires forall c :: c in added <==> c in subs[order[done]] && c !in order
    ensures Walk(subs, self, below, order + added, done + 1)
  {
    var order' := order + added;
    forall i | |order| <= i < |order'| ensures order'[i] in below && order'[i] !in order {
      assert order'[i] in added;
      assert order[done] in supers[order'[i]];
    }
  }

  /** A finished walk has met every class below `self`, once each. */
  lemma {:induction false} WalkIsComplete<C>(supers: map<C, seq<C>>, subs: map<C, set<C>>, rank: map<C, nat>, self: C,
                                             below: set<C>, via: map<C, C>, order: seq<C>, c: C)
    requires Ranked(supers, rank) && Inverse(supers, subs) && Cone(supers, self, below, via)
    requires Walk(subs, self, below, order, |order|) && c in below
    ensures c in order
    decreases rank[c]
  {
    if c != self {
      var s := via[c];
      WalkIsComplete(supers, subs, rank, self, below, via, order, s);
      var i :| 0 <= i < |order| && order[i] == s;
      assert c in subs[order[i]];
    }
  }

  /** All downward paths from `self` to any one class have the same length, recorded in `level`. */
  ghost predicate Levelled<C>(supers: map<C, seq<C>>, rank: map<C, nat>, self: C, level: map<C, nat>)
    requires Ranked(supers, rank)
  {
    && level.Keys == supers.Keys
    && forall c, s {:trigger s in supers[c]} :: c in supers && s in supers[c] && SubclassOf(supers, rank, s, self) ==>
         level[c] == level[s] + 1
  }

  /** What `Levelled` means: a path from `c` up to `self` is as long as the levels are apart. */
  lemma {:induction false} PathLengthIsLevel<C>(supers: map<C, seq<C>>, rank: map<C, nat>, self: C,
                                                level: map<C, nat>, path: seq<C>)
    requires Ranked(supers, rank) && Levelled(supers, rank, self, level)
    requires IsPath(supers, path) && path[|path| - 1] == self
    ensures level[self] + |path| - 1 == level[path[0]]
    decreases |path|
  {
    if |path| > 1 {
      var rest := path[1..];
      forall i | 0 <= i < |rest| - 1 ensures rest[i + 1] in supers[rest[i]] {
        assert path[i + 1 + 1] in supers[path[i + 1]];
      }
      PathMakesSubclass(supers, rank, rest);
      PathLengthIsLevel(supers, rank, self, level, rest);
      assert path[0 + 1] in supers[path[0]];
    }
  }

  /** The length of one way from `c` up to `self`. */
  ghost function Steps<C>(supers: map<C, seq<C>>, rank: map<C, nat>, self: C, c: C): nat
    requires Ranked(supers, rank) && c in supers
    decreases rank[c]
  {
    if c == self || !exists s :: s in supers[c] && SubclassOf(supers, rank, s, self) then 0
    else
      var s :| s in supers[c] && SubclassOf(supers, rank, s, self);
      Steps(supers, rank, self, s) + 1
  }

  /** All ways from a class up to `self` are equally long. */
  ghost predicate EqualWays<C>(supers: map<C, seq<C>>, rank: map<C, nat>, self: C)
    requires Ranked(supers, rank)
  {
    Levelled(supers, rank, self, map c | c in supers :: Steps(supers, rank, self, c))
  }

  lemma {:induction false} StepsAreLevels<C>(supers: map<C, seq<C>>, rank: map<C, nat>, self: C, level: map<C, nat>,
                                             c: C)
    requires Ranked(supers, rank) && self in supers && Levelled(supers, rank, self, level)
    requires c in supers && SubclassOf(supers, rank, c, self)
    ensures level[c] == level[self] + Steps(supers, rank, self, c)
    decreases rank[c]
  {
    if c != self {
      AnySubclassOfIff(supers, rank, supers[c], rank[c], self);
      var s :| s in supers[c] && SubclassOf(supers, rank, s, self)
            && Steps(supers, rank, self, c) == Steps(supers, rank, self, s) + 1;
      StepsAreLevels(supers, rank, self, level, s);
    }
  }

  /** They are if there are levels at all. */
  lemma LevelledHasEqualWays<C>(supers: map<C, seq<C>>, rank: map<C, nat>, self: C, level: map<C, nat>)
    requires Ranked(supers, rank) && self in supers && Levelled(supers, rank, self, level)
    ensures EqualWays(supers, rank, self)
  {
    forall c, s {:trigger s in supers[c]} |
      c in supers && s in supers[c] && SubclassOf(supers, rank, s, self)
      ensures Steps(supers, rank, self, c) == Steps(supers, rank, self, s) + 1
    {
      AnySubclassOfIff(supers, rank, supers[c], rank[c], self);
      StepsAreLevels(supers, rank, self, level, c);
      StepsAreLevels(supers, rank, self, level, s);
    }
  }

  ghost predicate LevelledIn<C>(supers: map<C, seq<C>>, below: set<C>, level: map<C, nat>) {
    && level.Keys == supers.Keys
    && forall c, s {:trigger s in supers[c]} :: c in supers && s in supers[c] && s in below && s in supers ==>
         level[c] == level[s] + 1
  }

  /**
    The distances from `self`: a class is one step further than the class it is reached by, and no superclass is
    nearer.
   */
  ghost predicate Distances<C>(supers: map<C, seq<C>>, below: set<C>, via: map<C, C>, level: map<C, nat>) {
    && level.Keys == supers.Keys
    && (forall c {:trigger via[c]} :: c in via ==> c in level && via[c] in level && level[c] == level[via[c]] + 1)
    && (forall c, s {:trigger s in supers[c]} :: c in supers && s in supers[c] && s in below && s in supers ==>
          level[c] <= level[s] + 1)
  }

  /** On a levelled hierarchy the levels are distances. */
  lemma LevelsAreDistances<C>(supers: map<C, seq<C>>, self: C, below: set<C>, via: map<C, C>, level: map<C, nat>)
    requires Cone(supers, self, below, via) && LevelledIn(supers, below, level)
    ensures Distances(supers, below, via, level)
  {
    forall c {:trigger via[c]} | c in via ensures c in level && via[c] in level && level[c] == level[via[c]] + 1 {
      assert via[c] in supers[c];
    }
  }

  /** The levels along a walk never fall, and what is queued is at most one level deeper than what is next. */
  ghost predicate Layered<C>(level: map<C, nat>, order: seq<C>, done: nat) {
    && (forall i :: 0 <= i < |order| ==> order[i] in level)
    && (forall i, j :: 0 <= i < j < |order| ==> level[order[i]] <= level[order[j]])
    && (forall j :: 0 <= j < |order| && done < |order| ==> level[order[j]] <= level[order[done]] + 1)
  }

  /** The walk meets a class only after everything below `self` that is nearer. */
  lemma {:induction false} LowerLevelsAreDone<C>(supers: map<C, seq<C>>, subs: map<C, set<C>>, rank: map<C, nat>,
                                                 self: C,
                                                 below: set<C>, via: map<C, C>, level: map<C, nat>,
                                                 order: seq<C>, done: nat, c: C)
    requires Ranked(supers, rank) && Inverse(supers, subs) && Cone(supers, self, below, via)
    requires Distances(supers, below, via, level)
    requires Walk(subs, self, below, order, done) && done < |order| && Layered(level, order, done)
    requires c in below && level[c] < level[order[done]]
    ensures c in order[..done]
    decreases rank[c]
  {
    if c == self {
      assert order[0] == self && done != 0;
    } else {
      var s := via[c];
      LowerLevelsAreDone(supers, subs, rank, self, below, via, level, order, done, s);
      var i :| 0 <= i < done && order[i] == s;
      assert c in subs[order[i]];
      var j :| 0 <= j < |order| && order[j] == c;
    }
  }

  /** What a class queues is exactly one level deeper: had it been nearer, it would have been queued before. */
  lemma QueuedIsNext<C>(supers: map<C, seq<C>>, subs: map<C, set<C>>, rank: map<C, nat>, self: C,
                        below: set<C>, via: map<C, C>, level: map<C, nat>, order: seq<C>, done: nat, c: C)
    requires Ranked(supers, rank) && Inverse(supers, subs) && Cone(supers, self, below, via)
    requires Distances(supers, below, via, level)
    requires Walk(subs, self, below, order, done) && done < |order| && Layered(level, order, done)
    requires c in subs[order[done]] && c !in order
    ensures c in level && level[c] == level[order[done]] + 1
  {
    assert order[done] in supers[c] && c in below && c != self;
    assert c in subs[via[c]];
    assert forall i :: 0 <= i < done ==> c !in subs[order[i]];
    if level[c] <= level[order[done]] {
      LowerLevelsAreDone(supers, subs, rank, self, below, via, level, order, done, via[c]);
    }
  }

  lemma LayeredStep<C>(supers: map<C, seq<C>>, subs: map<C, set<C>>, rank: map<C, nat>, self: C,
                       below: set<C>, via: map<C, C>, level: map<C, nat>, order: seq<C>, done: nat, added: seq<C>)
    requires Ranked(supers, rank) && Inverse(supers, subs) && Cone(supers, self, below, via)
    requires Distances(supers, below, via, level)
    requires Walk(subs, self, below, order, done) && done < |order| && Layered(level, order, done)
    requires forall c :: c in added ==> c in subs[order[done]] && c !in order
    ensures Layered(level, order + added, done + 1)
  {
    var order' := order + added;
    forall i | |order| <= i < |order'| ensures order'[i] in level && level[order'[i]] == level[order[done]] + 1 {
      assert order'[i] in added;
      QueuedIsNext(supers, subs, rank, self, below, via, level, order, done, order'[i]);
    }
  }

  // ---- rebuilding the tables along the walk ----

  ghost predicate LinkedForAll<C, V>(supers: map<C, seq<C>>, members: map<C, Table<V>>, flat: map<C, Table<V>>, c: C)
    requires members.Keys == supers.Keys == flat.Keys && c in supers
    requires forall s :: s in supers[c] ==> s in supers
  {
    forall name: string :: Linked(supers, members, flat, c, name)
  }

  /** The first `done` classes of the walk are linked for good: their superclasses below `self` came earlier. */
  ghost predicate Relinked<C, V>(supers: map<C, seq<C>>, rank: map<C, nat>, members: map<C, Table<V>>,
                                 flat: map<C, Table<V>>, below: set<C>, order: seq<C>, done: nat)
    requires Ranked(supers, rank) && members.Keys == supers.Keys == flat.Keys
    requires done <= |order| && forall i :: 0 <= i < |order| ==> order[i] in supers
  {
    && (forall i {:trigger LinkedForAll(supers, members, flat, order[i])} :: 0 <= i < done ==>
          LinkedForAll(supers, members, flat, order[i]))
    && (forall i, s {:trigger s in supers[order[i]]} ::
          0 <= i < done && s in supers[order[i]] && s in below ==> s in order[..done])
  }

  lemma LinkedKept<C, V>(supers: map<C, seq<C>>, members: map<C, Table<V>>, flat: map<C, Table<V>>,
                         flat': map<C, Table<V>>, c: C)
    requires members.Keys == supers.Keys == flat.Keys == flat'.Keys && c in supers
    requires forall s :: s in supers[c] ==> s in supers && flat'[s] == flat[s]
    requires flat'[c] == flat[c]
    requires LinkedForAll(supers, members, flat, c)
    ensures LinkedForAll(supers, members, flat', c)
  {
    forall name: string ensures Linked(supers, members, flat', c, name) {
      assert Linked(supers, members, flat, c, name);
      FirstMatchSame(supers[c], flat, flat', name);
    }
  }

  /** Rebuilding the next class of the walk. */
  lemma RelinkedStep<C, V>(supers: map<C, seq<C>>, rank: map<C, nat>, members: map<C, Table<V>>,
                           flat: map<C, Table<V>>, flat': map<C, Table<V>>, below: set<C>, order: seq<C>, done: nat)
    requires Ranked(supers, rank) && members.Keys == supers.Keys == flat.Keys == flat'.Keys
    requires done < |order| && forall i :: 0 <= i < |order| ==> order[i] in supers && order[i] in below
    requires forall i, j :: 0 <= i < j < |order| ==> order[i] != order[j]
    requires Relinked(supers, rank, members, flat, below, order, done)
    requires forall c :: c in supers && c != order[done] ==> flat'[c] == flat[c]
    requires LinkedForAll(supers, members, flat', order[done])
    requires forall s :: s in supers[order[done]] && s in below ==> s in order[..done]
    ensures Relinked(supers, rank, members, flat', below, order, done + 1)
  {
    var x := order[done];
    assert order[..done + 1] == order[..done] + [x];
    forall i | 0 <= i < done ensures LinkedForAll(supers, members, flat', order[i]) {
      assert LinkedForAll(supers, members, flat, order[i]);
      assert x !in order[..done] && x in below;
      assert x !in supers[order[i]];
      LinkedKept(supers, members, flat, flat', order[i]);
    }
  }

  /** A table rebuilt from the superclasses' tables is linked. */
  lemma RebuiltIsLinked<C, V>(supers: map<C, seq<C>>, rank: map<C, nat>, members: map<C, Table<V>>,
                              flat: map<C, Table<V>>, flat': map<C, Table<V>>, c: C)
    requires Ranked(supers, rank) && members.Keys == supers.Keys == flat.Keys == flat'.Keys && c in supers
    requires forall x :: x in supers && x != c ==> flat'[x] == flat[x]
    requires forall name :: Get(flat'[c], name) ==
               if name in members[c] then Some(members[c][name]) else FirstMatch(supers[c], flat, name)
    ensures LinkedForAll(supers, members, flat', c)
  {
    assert c !in supers[c];
    FirstMatchUnchanged(supers[c], flat, flat');
    forall name: string ensures Linked(supers, members, flat', c, name) {
      assert FirstMatch(supers[c], flat, name) == FirstMatch(supers[c], flat', name);
    }
  }

  /** A walk that has relinked everything below `self` leaves every table right. */
  lemma RelinkedEnds<C, V>(supers: map<C, seq<C>>, rank: map<C, nat>, members: map<C, Table<V>>,
                           flat0: map<C, Table<V>>, flat: map<C, Table<V>>, self: C, below: set<C>, via: map<C, C>,
                           order: seq<C>)
    requires Ranked(supers, rank) && members.Keys == supers.Keys == flat.Keys == flat0.Keys
    requires Cone(supers, self, below, via)
    requires forall i :: 0 <= i < |order| ==> order[i] in supers
    requires forall c :: c in order <==> c in below
    requires Relinked(supers, rank, members, flat, below, order, |order|)
    requires forall c :: c in supers && c !in order ==> flat[c] == flat0[c] && LinkedForAll(supers, members, flat0, c)
    ensures Coherent(supers, rank, members, flat)
  {
    forall c | c in supers ensures LinkedForAll(supers, members, flat, c) {
      if c in order {
        var i :| 0 <= i < |order| && order[i] == c;
      } else {
        LinkedKept(supers, members, flat0, flat, c);
      }
    }
    forall name: string ensures CoherentAt(supers, rank, members, flat, name) {
      forall c | c in supers ensures Linked(supers, members, flat, c, name) {
        assert LinkedForAll(supers, members, flat, c);
      }
      CoherentIffLinked(supers, rank, members, flat, name);
    }
  }

  /** What is not at or below `self` stays linked when `self` gets new superclasses. */
  lemma OutsideStaysLinked<C, V>(supers: map<C, seq<C>>, rank: map<C, nat>, members: map<C, Table<V>>,
                                 flat: map<C, Table<V>>, self: C, parents: seq<C>, rank': map<C, nat>, c: C,
                                 supers': map<C, seq<C>>)
    requires Ranked(supers, rank) && members.Keys == supers.Keys == flat.Keys && self in supers
    requires supers' == supers[self := parents] && Ranked(supers', rank')
    requires c in supers && !SubclassOf(supers', rank', c, self)
    requires !SubclassOf(supers, rank, c, self) ==> LinkedForAll(supers, members, flat, c)
    ensures LinkedForAll(supers', members, flat, c)
  {
    SubclassKept(supers, rank, rank', self, parents, c);
    forall name: string ensures Linked(supers', members, flat, c, name) {
      assert Linked(supers, members, flat, c, name);
    }
  }

  lemma CoherentIsLinked<C, V>(supers: map<C, seq<C>>, rank: map<C, nat>, members: map<C, Table<V>>,
                               flat: map<C, Table<V>>, c: C)
    requires Ranked(supers, rank) && members.Keys == supers.Keys == flat.Keys && c in supers
    requires Coherent(supers, rank, members, flat)
    ensures LinkedForAll(supers, members, flat, c)
  {
    forall name: string ensures Linked(supers, members, flat, c, name) {
      assert CoherentAt(supers, rank, members, flat, name);
      CoherentIffLinked(supers, rank, members, flat, name);
    }
  }

  /** Nothing but the class itself is below a class that no class names as a superclass. */
  lemma {:induction false} NothingBelowNew<C>(supers: map<C, seq<C>>, rank: map<C, nat>, self: C, c: C)
    requires Ranked(supers, rank) && c in supers && c != self
    requires forall x :: x in supers ==> self !in supers[x]
    ensures !SubclassOf(supers, rank, c, self)
    decreases rank[c]
  {
    AnySubclassOfIff(supers, rank, supers[c], rank[c], self);
    forall s | s in supers[c] ensures !SubclassOf(supers, rank, s, self) {
      NothingBelowNew(supers, rank, self, s);
    }
  }

  lemma LinkedCarriesOver<C, V>(supers: map<C, seq<C>>, members: map<C, Table<V>>, flat: map<C, Table<V>>,
                                supers': map<C, seq<C>>, members': map<C, Table<V>>, flat': map<C, Table<V>>, x: C)
    requires members.Keys == supers.Keys == flat.Keys && members'.Keys == supers'.Keys == flat'.Keys
    requires x in supers && x in supers' && supers[x] == supers'[x]
    requires forall s :: s in supers[x] ==> s in supers && s in supers' && flat'[s] == flat[s]
    requires members'[x] == members[x] && flat'[x] == flat[x]
    requires LinkedForAll(supers, members, flat, x)
    ensures LinkedForAll(supers', members', flat', x)
  {
    forall name: string ensures Linked(supers', members', flat', x, name) {
      assert Linked(supers, members, flat, x, name);
      FirstMatchSame(supers[x], flat, flat', name);
    }
  }

  /** A class with no links yet joins the hierarchy: nothing else is below it. */
  lemma NewClassJoins<C>(supers: map<C, seq<C>>, subs: map<C, set<C>>, rank: map<C, nat>, self: C,
                         supers': map<C, seq<C>>, subs': map<C, set<C>>, rank': map<C, nat>)
    requires Ranked(supers, rank) && Inverse(supers, subs) && self !in supers
    requires supers' == supers[self := []] && subs' == subs[self := {}] && rank' == rank[self := 0]
    ensures Ranked(supers', rank') && Inverse(supers', subs')
    ensures forall x :: x in supers ==> self !in supers'[x]
    ensures forall x :: x in supers ==> !SubclassOf(supers', rank', x, self)
  {
    assert Ranked(supers', rank');
    forall x | x in supers ensures self !in supers'[x] && !SubclassOf(supers', rank', x, self) {
      assert self in supers[x] ==> self in supers;
      NothingBelowNew(supers', rank', self, x);
    }
  }

  /** The tables of the others stay right. */
  lemma OthersStayLinked<C, V>(supers: map<C, seq<C>>, rank: map<C, nat>, members: map<C, Table<V>>,
                               flat: map<C, Table<V>>, self: C, supers': map<C, seq<C>>, members': map<C, Table<V>>,
                               flat': map<C, Table<V>>, x: C)
    requires Ranked(supers, rank) && members.Keys == flat.Keys == supers.Keys
    requires Coherent(supers, rank, members, flat) && self !in supers && x in supers
    requires supers' == supers[self := []] && members'.Keys == flat'.Keys == supers'.Keys
    requires forall y :: y in supers ==> members'[y] == members[y] && flat'[y] == flat[y]
    ensures forall s :: s in supers'[x] ==> s in supers'
    ensures LinkedForAll(supers', members', flat', x)
  {
    CoherentIsLinked(supers, rank, members, flat, x);
    LinkedCarriesOver(supers, members, flat, supers', members', flat', x);
  }

  /** A hierarchy is levelled below a class that nobody inherits from. */
  lemma LeafIsLevelled<C>(supers: map<C, seq<C>>, rank: map<C, nat>, self: C, level: map<C, nat>)
    requires Ranked(supers, rank) && level.Keys == supers.Keys
    requires forall x :: x in supers ==> self !in supers[x]
    ensures Levelled(supers, rank, self, level)
    ensures forall c :: c in supers && c != self ==> !SubclassOf(supers, rank, c, self)
  {
    forall c | c in supers && c != self ensures !SubclassOf(supers, rank, c, self) {
      NothingBelowNew(supers, rank, self, c);
    }
  }

  lemma LeafHasEqualWays<C>(supers: map<C, seq<C>>, rank: map<C, nat>, self: C, level: map<C, nat>)
    requires Ranked(supers, rank) && level.Keys == supers.Keys && self in supers
    requires forall x :: x in supers ==> self !in supers[x]
    ensures EqualWays(supers, rank, self)
    ensures forall c :: c in supers && c != self ==> !SubclassOf(supers, rank, c, self)
  {
    LeafIsLevelled(supers, rank, self, level);
    LevelledHasEqualWays(supers, rank, self, level);
  }

  lemma NewlyQueued<C>(queue: seq<C>, queue': seq<C>, classes: set<C>) returns (added: seq<C>)
    requires |queue| <= |queue'| && queue == queue'[..|queue|]
    requires forall c :: c in queue' <==> c in queue || c in classes
    requires forall i, j :: |queue| <= i < j < |queue'| ==> queue'[i] != queue'[j]
    requires forall i :: |queue| <= i < |queue'| ==> queue'[i] !in queue
    ensures queue' == queue + added
    ensures forall i, j :: 0 <= i < j < |added| ==> added[i] != added[j]
    ensures forall c :: c in added <==> c in classes && c !in queue
  {
    added := queue'[|queue|..];
    forall c | c in added ensures c in classes && c !in queue {
      var i :| 0 <= i < |added| && added[i] == c;
      assert queue'[|queue| + i] == c && c in queue';
    }
  }

  lemma {:induction false} Met<C>(order: seq<C>) returns (met: set<C>)
    requires forall i, j :: 0 <= i < j < |order| ==> order[i] != order[j]
    ensures |met| == |order| && forall c :: c in met <==> c in order
    decreases |order|
  {
    met := {};
    if order != [] {
      var rest := order[..|order| - 1];
      met := Met(rest);
      assert order == rest + [order[|order| - 1]];
      assert order[|order| - 1] !in rest;
      met := met + {order[|order| - 1]};
    }
  }

  lemma {:induction false} SubsetSize<C>(a: set<C>, b: set<C>)
    requires a <= b
    ensures |a| <= |b|
    decreases a
  {
    if a != {} {
      var x :| x in a;
      SubsetSize(a - {x}, b - {x});
    }
  }
}
