/**
  The inheritance graph behind the LOOP class models, as values.

  `supers` maps each class to its superclasses in order of priority, `members` to the
  members defined in the class itself and `flat` to the table that the cached model
  keeps for it, in which inherited members have been copied.  `Lookup` is the recursive
  first-match lookup of the multiple-inheritance model; the cached model is right when
  `flat` agrees with it.
*/
module ClassGraph {
  import opened Wrappers

  type Table<V> = map<string, V>

  /** A rank that falls along every superclass edge: the graph is closed and acyclic. */
  ghost predicate Ranked<C>(supers: map<C, seq<C>>, rank: map<C, nat>) {
    && supers.Keys == rank.Keys
    && forall c, s {:trigger s in supers[c]} :: c in supers && s in supers[c] ==> s in supers && rank[s] < rank[c]
  }

  function Get<V>(table: Table<V>, name: string): Option<V> {
    if name in table then Some(table[name]) else None
  }

  function Put<V>(table: Table<V>, name: string, value: Option<V>): (r: Table<V>)
    ensures Get(r, name) == value
    ensures forall n :: n != name ==> Get(r, n) == Get(table, n)
  {
    match value
    case Some(v) => table[name := v]
    case None => table - {name}
  }

  /** The value of the first class in `list` whose table has `name`. */
  function FirstMatch<C(==), V>(list: seq<C>, flat: map<C, Table<V>>, name: string): Option<V>
    requires forall s :: s in list ==> s in flat
  {
    if list == [] then None
    else if name in flat[list[0]] then Some(flat[list[0]][name])
    else FirstMatch(list[1..], flat, name)
  }

  lemma {:induction false} FirstMatchFinds<C, V>(list: seq<C>, flat: map<C, Table<V>>, name: string)
    requires forall s :: s in list ==> s in flat
    ensures FirstMatch(list, flat, name) == None <==> forall s :: s in list ==> name !in flat[s]
  {
    if list != [] {
      FirstMatchFinds(list[1..], flat, name);
      assert forall s :: s in list <==> s == list[0] || s in list[1..];
    }
  }

  /** The lookup of the multiple-inheritance model: own member, else depth first through the superclasses. */
  ghost function Lookup<C, V>(supers: map<C, seq<C>>, rank: map<C, nat>, members: map<C, Table<V>>,
                            c: C, name: string): Option<V>
    requires Ranked(supers, rank) && members.Keys == supers.Keys && c in supers
    decreases rank[c], 1, 0
  {
    if name in members[c] then Some(members[c][name])
    else LookupIn(supers, rank, members, supers[c], rank[c], name)
  }

  ghost function LookupIn<C, V>(supers: map<C, seq<C>>, rank: map<C, nat>, members: map<C, Table<V>>,
                              list: seq<C>, bound: nat, name: string): Option<V>
    requires Ranked(supers, rank) && members.Keys == supers.Keys
    requires forall s :: s in list ==> s in supers && rank[s] < bound
    decreases bound, 0, |list|
  {
    if list == [] then None
    else
      var value := Lookup(supers, rank, members, list[0], name);
      if value.Some? then value else LookupIn(supers, rank, members, list[1..], bound, name)
  }

  /** One class's table entry is what its own members and its superclasses' tables give. */
  ghost predicate Linked<C, V>(supers: map<C, seq<C>>, members: map<C, Table<V>>, flat: map<C, Table<V>>,
                             c: C, name: string)
    requires members.Keys == supers.Keys == flat.Keys && c in supers
    requires forall s :: s in supers[c] ==> s in supers
  {
    Get(flat[c], name) ==
      if name in members[c] then Some(members[c][name]) else FirstMatch(supers[c], flat, name)
  }

  /** Every table entry for `name` is what the lookup finds. */
  ghost predicate CoherentAt<C, V>(supers: map<C, seq<C>>, rank: map<C, nat>, members: map<C, Table<V>>,
                                 flat: map<C, Table<V>>, name: string)
    requires Ranked(supers, rank) && members.Keys == supers.Keys == flat.Keys
  {
    forall c :: c in supers ==> Get(flat[c], name) == Lookup(supers, rank, members, c, name)
  }

  ghost predicate Coherent<C, V>(supers: map<C, seq<C>>, rank: map<C, nat>, members: map<C, Table<V>>,
                               flat: map<C, Table<V>>)
    requires Ranked(supers, rank) && members.Keys == supers.Keys == flat.Keys
  {
    forall name: string :: CoherentAt(supers, rank, members, flat, name)
  }

  /** Superclass tables that agree with the lookup give the superclass search. */
  lemma {:induction false} FirstMatchIsLookup<C, V>(supers: map<C, seq<C>>, rank: map<C, nat>,
                                                    members: map<C, Table<V>>,
                                                    flat: map<C, Table<V>>, list: seq<C>, bound: nat, name: string)
    requires Ranked(supers, rank) && members.Keys == supers.Keys == flat.Keys
    requires forall s :: s in list ==> s in supers && rank[s] < bound
    requires forall s :: s in list ==> Get(flat[s], name) == Lookup(supers, rank, members, s, name)
    ensures FirstMatch(list, flat, name) == LookupIn(supers, rank, members, list, bound, name)
  {
    if list != [] {
      assert list[0] in list;
      FirstMatchIsLookup(supers, rank, members, flat, list[1..], bound, name);
    }
  }

  lemma {:induction false} LinkedIsLookup<C, V>(supers: map<C, seq<C>>, rank: map<C, nat>, members: map<C, Table<V>>,
                                                flat: map<C, Table<V>>, c: C, name: string)
    requires Ranked(supers, rank) && members.Keys == supers.Keys == flat.Keys && c in supers
    requires forall x :: x in supers ==> Linked(supers, members, flat, x, name)
    ensures Get(flat[c], name) == Lookup(supers, rank, members, c, name)
    decreases rank[c]
  {
    forall s | s in supers[c] ensures Get(flat[s], name) == Lookup(supers, rank, members, s, name) {
      LinkedIsLookup(supers, rank, members, flat, s, name);
    }
    FirstMatchIsLookup(supers, rank, members, flat, supers[c], rank[c], name);
  }

  /** Agreement with the lookup is a local property: it holds everywhere exactly when every class is linked. */
  lemma CoherentIffLinked<C, V>(supers: map<C, seq<C>>, rank: map<C, nat>, members: map<C, Table<V>>,
                                flat: map<C, Table<V>>, name: string)
    requires Ranked(supers, rank) && members.Keys == supers.Keys == flat.Keys
    ensures CoherentAt(supers, rank, members, flat, name) <==>
            forall c :: c in supers ==> Linked(supers, members, flat, c, name)
  {
    if CoherentAt(supers, rank, members, flat, name) {
      forall c | c in supers ensures Linked(supers, members, flat, c, name) {
        FirstMatchIsLookup(supers, rank, members, flat, supers[c], rank[c], name);
      }
    } else if forall c :: c in supers ==> Linked(supers, members, flat, c, name) {
      forall c | c in supers ensures Get(flat[c], name) == Lookup(supers, rank, members, c, name) {
        LinkedIsLookup(supers, rank, members, flat, c, name);
      }
    }
  }

  // ---- subclass links and reachability ----

  /** `subs` lists exactly the classes that name the class as a superclass. */
  ghost predicate Inverse<C>(supers: map<C, seq<C>>, subs: map<C, set<C>>) {
    && subs.Keys == supers.Keys
    && (forall c, s {:trigger s in subs[c]} :: c in subs && s in subs[c] ==> s in supers && c in supers[s])
    && (forall c, s {:trigger s in supers[c]} :: c in supers && s in supers[c] ==> s in subs && c in subs[s])
  }

  /** The recursive search of `subclassof`: true when `super` is `c` or above it. */
  function SubclassOf<C(==)>(supers: map<C, seq<C>>, ghost rank: map<C, nat>, c: C, super: C): bool
    requires Ranked(supers, rank) && c in supers
    decreases rank[c], 1, 0
  {
    c == super || AnySubclassOf(supers, rank, supers[c], rank[c], super)
  }

  function AnySubclassOf<C(==)>(supers: map<C, seq<C>>, ghost rank: map<C, nat>, list: seq<C>, ghost bound: nat,
                                super: C): bool
    requires Ranked(supers, rank)
    requires forall s :: s in list ==> s in supers && rank[s] < bound
    decreases bound, 0, |list|
  {
    list != [] && (SubclassOf(supers, rank, list[0], super) || AnySubclassOf(supers, rank, list[1..], bound, super))
  }

  lemma {:induction false} AnySubclassOfIff<C>(supers: map<C, seq<C>>, rank: map<C, nat>, list: seq<C>, bound: nat,
                                               super: C)
    requires Ranked(supers, rank)
    requires forall s :: s in list ==> s in supers && rank[s] < bound
    ensures AnySubclassOf(supers, rank, list, bound, super) <==>
            exists s :: s in list && SubclassOf(supers, rank, s, super)
  {
    if list != [] {
      AnySubclassOfIff(supers, rank, list[1..], bound, super);
      if s :| s in list && SubclassOf(supers, rank, s, super) {
        assert s == list[0] || s in list[1..];
      } else {
        assert list[0] in list && !SubclassOf(supers, rank, list[0], super);
      }
    }
  }

  /** A walk up the superclass links. */
  ghost predicate IsPath<C>(supers: map<C, seq<C>>, path: seq<C>) {
    && path != []
    && (forall i :: 0 <= i < |path| ==> path[i] in supers)
    && (forall i :: 0 <= i < |path| - 1 ==> path[i + 1] in supers[path[i]])
  }

  lemma {:induction false} SubclassHasPath<C>(supers: map<C, seq<C>>, rank: map<C, nat>, c: C, super: C)
    returns (path: seq<C>)
    requires Ranked(supers, rank) && c in supers && SubclassOf(supers, rank, c, super)
    ensures IsPath(supers, path) && path[0] == c && path[|path| - 1] == super
    decreases rank[c]
  {
    if c == super {
      path := [c];
    } else {
      AnySubclassOfIff(supers, rank, supers[c], rank[c], super);
      var s :| s in supers[c] && SubclassOf(supers, rank, s, super);
      var rest := SubclassHasPath(supers, rank, s, super);
      path := [c] + rest;
    }
  }

  lemma {:induction false} PathMakesSubclass<C>(supers: map<C, seq<C>>, rank: map<C, nat>, path: seq<C>)
    requires Ranked(supers, rank) && IsPath(supers, path)
    ensures SubclassOf(supers, rank, path[0], path[|path| - 1])
    decreases |path|
  {
    if |path| > 1 {
      assert IsPath(supers, path[1..]) by {
        forall i | 0 <= i < |path[1..]| - 1 ensures path[1..][i + 1] in supers[path[1..][i]] {
          assert path[i + 1 + 1] in supers[path[i + 1]];
        }
      }
      PathMakesSubclass(supers, rank, path[1..]);
      AnySubclassOfIff(supers, rank, supers[path[0]], rank[path[0]], path[|path| - 1]);
      assert path[0 + 1] in supers[path[0]];
    }
  }

  /** `subclassof` decides reachability along superclass links, both ways, and the rank plays no part in it. */
  lemma SubclassOfDecidesReachability<C>(supers: map<C, seq<C>>, rank: map<C, nat>, c: C, super: C)
    requires Ranked(supers, rank) && c in supers
    ensures SubclassOf(supers, rank, c, super) <==>
            exists path: seq<C> :: IsPath(supers, path) && path[0] == c && path[|path| - 1] == super
  {
    if SubclassOf(supers, rank, c, super) {
      var path := SubclassHasPath(supers, rank, c, super);
    }
    forall path: seq<C> | IsPath(supers, path) && path[0] == c && path[|path| - 1] == super
      ensures SubclassOf(supers, rank, c, super)
    {
      PathMakesSubclass(supers, rank, path);
    }
  }

  // ---- the measure of the update queue ----

  /** Subclass links climb in rank, and no rank exceeds `top`. */
  ghost predicate Descending<C>(subs: map<C, set<C>>, rank: map<C, nat>, top: nat) {
    && subs.Keys == rank.Keys
    && (forall c :: c in subs ==> rank[c] <= top)
    && (forall c, s {:trigger s in subs[c]} :: c in subs && s in subs[c] ==> s in subs && rank[c] < rank[s])
  }

  /** One more than the number of nonempty downward paths from `c`. */
  ghost function Weight<C>(subs: map<C, set<C>>, rank: map<C, nat>, top: nat, c: C): (w: nat)
    requires Descending(subs, rank, top) && c in subs
    ensures w >= 1
    decreases top - rank[c], 1, 0
  {
    1 + WeightOf(subs, rank, top, subs[c], rank[c])
  }

  ghost function WeightOf<C>(subs: map<C, set<C>>, rank: map<C, nat>, top: nat, classes: set<C>, floor: nat): nat
    requires Descending(subs, rank, top) && floor <= top
    requires forall s :: s in classes ==> s in subs && floor < rank[s]
    decreases top - floor, 0, |classes|
  {
    if classes == {} then 0
    else
      var c :| c in classes;
      Weight(subs, rank, top, c) + WeightOf(subs, rank, top, classes - {c}, floor)
  }

  lemma {:induction false} WeightOfRemove<C>(subs: map<C, set<C>>, rank: map<C, nat>, top: nat, classes: set<C>,
                                             floor: nat, c: C)
    requires Descending(subs, rank, top) && floor <= top
    requires forall s :: s in classes ==> s in subs && floor < rank[s]
    requires c in classes
    ensures WeightOf(subs, rank, top, classes, floor)
         == Weight(subs, rank, top, c) + WeightOf(subs, rank, top, classes - {c}, floor)
    decreases |classes|
  {
    var d :| d in classes && WeightOf(subs, rank, top, classes, floor)
                          == Weight(subs, rank, top, d) + WeightOf(subs, rank, top, classes - {d}, floor);
    if d != c {
      WeightOfRemove(subs, rank, top, classes - {d}, floor, c);
      WeightOfRemove(subs, rank, top, classes - {c}, floor, d);
      assert classes - {d} - {c} == classes - {c} - {d};
    }
  }

  ghost function QueueWeight<C>(subs: map<C, set<C>>, rank: map<C, nat>, top: nat, queue: seq<C>): nat
    requires Descending(subs, rank, top)
    requires forall c :: c in queue ==> c in subs
  {
    if queue == [] then 0
    else Weight(subs, rank, top, queue[0]) + QueueWeight(subs, rank, top, queue[1..])
  }

  lemma {:induction false} QueueWeightAppend<C>(subs: map<C, set<C>>, rank: map<C, nat>, top: nat,
                                                queue: seq<C>, c: C)
    requires Descending(subs, rank, top) && c in subs
    requires forall x :: x in queue ==> x in subs
    ensures QueueWeight(subs, rank, top, queue + [c])
         == QueueWeight(subs, rank, top, queue) + Weight(subs, rank, top, c)
  {
    if queue == [] {
      assert [] + [c] == [c];
    } else {
      QueueWeightAppend(subs, rank, top, queue[1..], c);
      assert (queue + [c])[1..] == queue[1..] + [c];
    }
  }

  /** A rank no class exceeds. */
  ghost function Top<C>(rank: map<C, nat>): (top: nat)
    ensures forall c :: c in rank ==> rank[c] <= top
    decreases |rank|
  {
    if rank == map[] then 0
    else
      var c :| c in rank;
      var rest := rank - {c};
      assert forall x :: x in rank ==> x == c || x in rest;
      if rank[c] <= Top(rest) then Top(rest) else rank[c]
  }
}
