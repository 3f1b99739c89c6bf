/**
  The breadth-first walk that rebuilds the tables below a redefined class: which classes it meets in which order, what
  tables it leaves, and on which hierarchies it always leaves the right ones.
*/
module Walks {
  import opened Wrappers

  import opened ClassGraph
  import opened FieldUpdate
  import opened Relinking

  // ---- the tables a walk leaves ----

  /** A class's table in `tables`, empty for a class that has none. */
  function TableOf<C(==), V>(tables: map<C, Table<V>>, c: C): Table<V> {
    if c in tables then tables[c] else map[]
  }

  /** The superclass tables copied last to first, so that the first one wins. */
  function Merged<C(==), V>(list: seq<C>, flat: map<C, Table<V>>): Table<V> {
    if list == [] then map[] else Merged(list[1..], flat) + TableOf(flat, list[0])
  }

  lemma {:induction false} MergedIsFirstMatch<C, V>(list: seq<C>, flat: map<C, Table<V>>, name: string)
    requires forall s :: s in list ==> s in flat
    ensures Get(Merged(list, flat), name) == FirstMatch(list, flat, name)
  {
    if list != [] {
      MergedIsFirstMatch(list[1..], flat, name);
    }
  }

  /** The tables after one class is rebuilt from its superclasses' tables and its own members. */
  function Visit<C(==), V>(supers: map<C, seq<C>>, members: map<C, Table<V>>, flat: map<C, Table<V>>, c: C)
    : map<C, Table<V>> {
    flat[c := (if c in supers then Merged(supers[c], flat) else map[]) + TableOf(members, c)]
  }

  lemma VisitRebuilds<C, V>(supers: map<C, seq<C>>, members: map<C, Table<V>>, flat: map<C, Table<V>>, c: C,
                            name: string)
    requires members.Keys == supers.Keys == flat.Keys && c in supers
    requires forall s :: s in supers[c] ==> s in supers
    ensures Get(Visit(supers, members, flat, c)[c], name) ==
            if name in members[c] then Some(members[c][name]) else FirstMatch(supers[c], flat, name)
  {
    MergedIsFirstMatch(supers[c], flat, name);
  }

  lemma OthersStay<C, V>(supers: map<C, seq<C>>, members: map<C, Table<V>>, flat: map<C, Table<V>>, c: C)
    ensures var flat' := Visit(supers, members, flat, c);
            flat'.Keys == flat.Keys + {c} && forall x :: x in flat && x != c ==> flat'[x] == flat[x]
  {
  }

  /** Tables with the same entries are the same. */
  lemma SameEntries<V>(a: Table<V>, b: Table<V>)
    requires forall name :: Get(a, name) == Get(b, name)
    ensures a == b
  {
    forall name: string ensures name in a <==> name in b {
      assert Get(a, name) == Get(b, name);
    }
    forall name: string | name in a ensures a[name] == b[name] {
      assert Get(a, name) == Get(b, name);
    }
  }

  /** The tables after the first `n` classes of `order` are rebuilt one after the other. */
  function Swept<C(==), V>(supers: map<C, seq<C>>, members: map<C, Table<V>>, flat: map<C, Table<V>>, order: seq<C>,
                           n: nat)
    : map<C, Table<V>>
    requires n <= |order|
    decreases n
  {
    if n == 0 then flat else Visit(supers, members, Swept(supers, members, flat, order, n - 1), order[n - 1])
  }

  lemma {:induction false} SweptKeys<C, V>(supers: map<C, seq<C>>, members: map<C, Table<V>>, flat: map<C, Table<V>>,
                                           order: seq<C>, n: nat)
    requires n <= |order| && forall i :: 0 <= i < n ==> order[i] in flat
    ensures Swept(supers, members, flat, order, n).Keys == flat.Keys
    decreases n
  {
    if n > 0 {
      SweptKeys(supers, members, flat, order, n - 1);
    }
  }

  /** The order to come plays no part. */
  lemma {:induction false} SweptPrefix<C, V>(supers: map<C, seq<C>>, members: map<C, Table<V>>, flat: map<C, Table<V>>,
                                             order: seq<C>, order': seq<C>, n: nat)
    requires n <= |order| <= |order'| && forall i :: 0 <= i < |order| ==> order[i] == order'[i]
    ensures Swept(supers, members, flat, order, n) == Swept(supers, members, flat, order', n)
    decreases n
  {
    if n > 0 {
      SweptPrefix(supers, members, flat, order, order', n - 1);
    }
  }

  lemma {:induction false} SweptElsewhere<C, V>(supers: map<C, seq<C>>, members: map<C, Table<V>>,
                                                flat: map<C, Table<V>>,
                                                order: seq<C>, n: nat, c: C)
    requires n <= |order| && c in flat && forall i :: 0 <= i < n ==> order[i] != c
    ensures c in Swept(supers, members, flat, order, n) && Swept(supers, members, flat, order, n)[c] == flat[c]
    decreases n
  {
    if n > 0 {
      SweptElsewhere(supers, members, flat, order, n - 1, c);
    }
  }

  /** A class rebuilt once keeps its table. */
  lemma {:induction false} TableStays<C, V>(supers: map<C, seq<C>>, members: map<C, Table<V>>, flat: map<C, Table<V>>,
                                            order: seq<C>, k: nat, n: nat)
    requires k < n <= |order| && forall i :: k < i < |order| ==> order[i] != order[k]
    ensures var x := order[k];
            var before, after := Swept(supers, members, flat, order, k + 1), Swept(supers, members, flat, order, n);
            x in before && x in after && after[x] == before[x]
    decreases n
  {
    if n > k + 1 {
      TableStays(supers, members, flat, order, k, n - 1);
    }
  }

  // ---- tables that are right ----

  /** The table the lookup calls for. */
  ghost function TrueTable<C, V>(supers: map<C, seq<C>>, rank: map<C, nat>, members: map<C, Table<V>>, c: C): Table<V>
    requires Ranked(supers, rank) && members.Keys == supers.Keys && c in supers
    decreases rank[c], 1, 0
  {
    TrueTables(supers, rank, members, supers[c], rank[c]) + members[c]
  }

  ghost function TrueTables<C, V>(supers: map<C, seq<C>>, rank: map<C, nat>, members: map<C, Table<V>>,
                                  list: seq<C>, bound: nat): Table<V>
    requires Ranked(supers, rank) && members.Keys == supers.Keys
    requires forall s :: s in list ==> s in supers && rank[s] < bound
    decreases bound, 0, |list|
  {
    if list == [] then map[]
    else TrueTables(supers, rank, members, list[1..], bound) + TrueTable(supers, rank, members, list[0])
  }

  lemma {:induction false} TrueTableIsLookup<C, V>(supers: map<C, seq<C>>, rank: map<C, nat>, members: map<C, Table<V>>,
                                                   c: C, name: string)
    requires Ranked(supers, rank) && members.Keys == supers.Keys && c in supers
    ensures Get(TrueTable(supers, rank, members, c), name) == Lookup(supers, rank, members, c, name)
    decreases rank[c], 1, 0
  {
    TrueTablesAreLookup(supers, rank, members, supers[c], rank[c], name);
  }

  lemma {:induction false} TrueTablesAreLookup<C, V>(supers: map<C, seq<C>>, rank: map<C, nat>,
                                                     members: map<C, Table<V>>,
                                                     list: seq<C>, bound: nat, name: string)
    requires Ranked(supers, rank) && members.Keys == supers.Keys
    requires forall s :: s in list ==> s in supers && rank[s] < bound
    ensures Get(TrueTables(supers, rank, members, list, bound), name)
         == LookupIn(supers, rank, members, list, bound, name)
    decreases bound, 0, |list|
  {
    if list != [] {
      assert list[0] in list;
      TrueTableIsLookup(supers, rank, members, list[0], name);
      TrueTablesAreLookup(supers, rank, members, list[1..], bound, name);
    }
  }

  /** Right tables exist. */
  lemma TrueTablesFit<C, V>(supers: map<C, seq<C>>, rank: map<C, nat>, members: map<C, Table<V>>)
    returns (flat: map<C, Table<V>>)
    requires Ranked(supers, rank) && members.Keys == supers.Keys
    ensures flat.Keys == supers.Keys && Coherent(supers, rank, members, flat)
  {
    flat := map c | c in supers :: TrueTable(supers, rank, members, c);
    forall name: string ensures CoherentAt(supers, rank, members, flat, name) {
      forall c | c in supers ensures Get(flat[c], name) == Lookup(supers, rank, members, c, name) {
        TrueTableIsLookup(supers, rank, members, c, name);
      }
    }
  }

  /** What no class defines is found nowhere. */
  lemma {:induction false} UndefinedIsNotFound<C, V>(supers: map<C, seq<C>>, rank: map<C, nat>,
                                                     members: map<C, Table<V>>,
                                                     c: C, name: string)
    requires Ranked(supers, rank) && members.Keys == supers.Keys && c in supers
    requires forall x :: x in supers ==> name !in members[x]
    ensures Lookup(supers, rank, members, c, name) == None
    decreases rank[c], 1, 0
  {
    UndefinedIsNotFoundIn(supers, rank, members, supers[c], rank[c], name);
  }

  lemma {:induction false} UndefinedIsNotFoundIn<C, V>(supers: map<C, seq<C>>, rank: map<C, nat>,
                                                       members: map<C, Table<V>>,
                                                       list: seq<C>, bound: nat, name: string)
    requires Ranked(supers, rank) && members.Keys == supers.Keys
    requires forall s :: s in list ==> s in supers && rank[s] < bound
    requires forall x :: x in supers ==> name !in members[x]
    ensures LookupIn(supers, rank, members, list, bound, name) == None
    decreases bound, 0, |list|
  {
    if list != [] {
      assert list[0] in list;
      UndefinedIsNotFound(supers, rank, members, list[0], name);
      UndefinedIsNotFoundIn(supers, rank, members, list[1..], bound, name);
    }
  }

  lemma {:induction false} LongerThanAll(names: set<string>) returns (k: nat)
    ensures forall s :: s in names ==> |s| < k
    decreases |names|
  {
    k := 0;
    if names != {} {
      var s :| s in names;
      k := LongerThanAll(names - {s});
      k := if |s| < k then k else |s| + 1;
    }
  }

  /** There is always a name that no class defines. */
  lemma FreshName<C, V>(members: map<C, Table<V>>) returns (name: string)
    ensures forall x :: x in members ==> name !in members[x]
  {
    var names := set x, n | x in members && n in members[x] :: n;
    var k := LongerThanAll(names);
    name := seq(k, i => 'x');
    assert name !in names;
    assert forall x, n :: x in members && n in members[x] ==> n in names;
  }

  // ---- walks ----

  /** One round of a walk: the subclasses of the class at `k` that are not queued already are queued, once each. */
  ghost predicate Round<C>(subs: map<C, set<C>>, queue: seq<C>, k: nat, queue': seq<C>) {
    && k < |queue| && queue[k] in subs
    && |queue| <= |queue'| && queue == queue'[..|queue|]
    && (forall c :: c in queue' ==> c in queue || c in subs[queue[k]])
    && (forall c :: c in subs[queue[k]] ==> c in queue')
    && (forall i, j :: |queue| <= i < j < |queue'| ==> queue'[i] != queue'[j])
    && (forall i :: |queue| <= i < |queue'| ==> queue'[i] !in queue)
  }

  /** `qs` are the queues of a walk from `self`, round by round. */
  ghost predicate Rounds<C>(subs: map<C, set<C>>, self: C, qs: seq<seq<C>>) {
    qs != [] && qs[0] == [self] && forall k: nat :: k < |qs| - 1 ==> RoundAt(subs, qs, k)
  }

  ghost predicate RoundAt<C>(subs: map<C, set<C>>, qs: seq<seq<C>>, k: nat)
    requires k < |qs| - 1
  {
    Round(subs, qs[k], k, qs[k + 1])
  }

  lemma RoundAdded<C>(subs: map<C, set<C>>, self: C, qs: seq<seq<C>>, queue: seq<C>)
    requires Rounds(subs, self, qs) && Round(subs, qs[|qs| - 1], |qs| - 1, queue)
    ensures Rounds(subs, self, qs + [queue])
  {
    var qs' := qs + [queue];
    forall i: nat | i < |qs'| - 1 ensures RoundAt(subs, qs', i) {
      assert i < |qs| - 1 ==> RoundAt(subs, qs, i);
    }
  }

  /** The order in which a walk has met the classes. */
  function Order<C>(qs: seq<seq<C>>): seq<C>
    requires qs != []
  {
    qs[|qs| - 1]
  }

  /** Every class queued has had its round. */
  ghost predicate Finished<C>(subs: map<C, set<C>>, self: C, qs: seq<seq<C>>) {
    Rounds(subs, self, qs) && |Order(qs)| == |qs| - 1
  }

  /** The hierarchy with the class `self`, the classes `below` at or below it, and for each of these a way up to it. */
  datatype Region<C(==)> = Region(supers: map<C, seq<C>>, subs: map<C, set<C>>, rank: map<C, nat>, self: C,
                                  below: set<C>, via: map<C, C>)
  {
    ghost predicate Valid() {
      Ranked(supers, rank) && Inverse(supers, subs) && Cone(supers, self, below, via)
    }

    lemma {:induction false} QueueIsWalk(qs: seq<seq<C>>, k: nat)
      requires Valid() && Rounds(subs, self, qs) && k < |qs|
      ensures Walk(subs, self, below, qs[k], k)
      decreases k
    {
      if k > 0 {
        QueueIsWalk(qs, k - 1);
        assert RoundAt(subs, qs, k - 1);
        var added := NewlyQueued(qs[k - 1], qs[k], subs[qs[k - 1][k - 1]]);
        WalkStep(supers, subs, self, below, via, qs[k - 1], k - 1, added);
      }
    }

    /** Queues only grow at the end. */
    lemma {:induction false} QueuesGrow(qs: seq<seq<C>>, j: nat, k: nat)
      requires Rounds(subs, self, qs) && j <= k < |qs|
      ensures |qs[j]| <= |qs[k]| && qs[j] == qs[k][..|qs[j]|]
      decreases k
    {
      if j < k {
        QueuesGrow(qs, j, k - 1);
        assert RoundAt(subs, qs, k - 1);
      }
    }

    /** A finished walk has met every class at or below `self`, once each. */
    lemma FinishedIsComplete(qs: seq<seq<C>>)
      requires Valid() && Finished(subs, self, qs)
      ensures forall i, j :: 0 <= i < j < |Order(qs)| ==> Order(qs)[i] != Order(qs)[j]
      ensures forall c :: c in Order(qs) <==> c in below
    {
      QueueIsWalk(qs, |qs| - 1);
      forall c | c in below ensures c in Order(qs) {
        WalkIsComplete(supers, subs, rank, self, below, via, Order(qs), c);
      }
    }

    /** Every class of the order comes after those of its superclasses that are at or below `self`. */
    ghost predicate Topological(order: seq<C>)
      requires Valid()
    {
      forall k, s {:trigger s in supers[order[k]]} ::
        0 <= k < |order| && order[k] in supers && s in supers[order[k]] && s in below ==>
        s in order[..k]
    }

    // ---- when a given order repairs the tables ----

    ghost predicate Fitting<V>(members: map<C, Table<V>>, flat0: map<C, Table<V>>)
      requires Valid()
    {
      && members.Keys == supers.Keys == flat0.Keys
      && forall c {:trigger LinkedForAll(supers, members, flat0, c)} :: c in supers && c !in below ==>
           LinkedForAll(supers, members, flat0, c)
    }

    /** An order in which each class at or below `self` occurs once. */
    ghost predicate Covers(order: seq<C>) {
      && (forall i, j :: 0 <= i < j < |order| ==> order[i] != order[j])
      && (forall i :: 0 <= i < |order| ==> order[i] in below)
      && (forall c :: c in below ==> c in order)
    }

    /** Rebuilding the classes of `order` leaves every table right. */
    ghost predicate Repaired<V>(members: map<C, Table<V>>, flat0: map<C, Table<V>>, order: seq<C>)
      requires Valid() && members.Keys == supers.Keys
    {
      var flat := Swept(supers, members, flat0, order, |order|);
      flat.Keys == supers.Keys && Coherent(supers, rank, members, flat)
    }

    lemma {:induction false} SweptIsRelinked<V>(members: map<C, Table<V>>, flat0: map<C, Table<V>>, order: seq<C>,
                                                n: nat)
      requires Valid() && Fitting(members, flat0) && Covers(order) && Topological(order) && n <= |order|
      ensures forall i :: 0 <= i < |order| ==> order[i] in supers
      ensures Swept(supers, members, flat0, order, n).Keys == supers.Keys
      ensures Relinked(supers, rank, members, Swept(supers, members, flat0, order, n), below, order, n)
      decreases n
    {
      if n > 0 {
        SweptIsRelinked(members, flat0, order, n - 1);
        VisitRelinks(members, Swept(supers, members, flat0, order, n - 1), order, n - 1);
      }
    }

    lemma VisitRelinks<V>(members: map<C, Table<V>>, flat: map<C, Table<V>>, order: seq<C>, m: nat)
      requires Valid() && members.Keys == supers.Keys == flat.Keys && Covers(order) && Topological(order) && m < |order|
      requires Relinked(supers, rank, members, flat, below, order, m)
      ensures Visit(supers, members, flat, order[m]).Keys == supers.Keys
      ensures Relinked(supers, rank, members, Visit(supers, members, flat, order[m]), below, order, m + 1)
    {
      var flat' := Visit(supers, members, flat, order[m]);
      forall name ensures Get(flat'[order[m]], name) ==
                          if name in members[order[m]] then Some(members[order[m]][name])
                          else FirstMatch(supers[order[m]], flat, name)
      {
        VisitRebuilds(supers, members, flat, order[m], name);
      }
      RebuiltIsLinked(supers, rank, members, flat, flat', order[m]);
      RelinkedStep(supers, rank, members, flat, flat', below, order, m);
    }

    lemma TopologicalRepairs<V>(members: map<C, Table<V>>, flat0: map<C, Table<V>>, order: seq<C>)
      requires Valid() && Fitting(members, flat0) && Covers(order) && Topological(order)
      ensures forall i :: 0 <= i < |order| ==> order[i] in supers
      ensures Swept(supers, members, flat0, order, |order|).Keys == supers.Keys
      ensures Coherent(supers, rank, members, Swept(supers, members, flat0, order, |order|))
    {
      SweptIsRelinked(members, flat0, order, |order|);
      var flat := Swept(supers, members, flat0, order, |order|);
      forall c | c in supers && c !in order
        ensures flat[c] == flat0[c] && LinkedForAll(supers, members, flat0, c)
      {
        SweptElsewhere(supers, members, flat0, order, |order|, c);
      }
      RelinkedEnds(supers, rank, members, flat0, flat, self, below, via, order);
    }

    lemma VisitCopies<V>(members: map<C, Table<V>>, flat: map<C, Table<V>>, c: C, s: C, name: string)
      requires Valid() && members.Keys == supers.Keys == flat.Keys && c in supers && s in supers[c]
      requires name in flat[s] && name !in members[c]
      ensures name in Visit(supers, members, flat, c)[c]
    {
      VisitRebuilds(supers, members, flat, c, name);
      FirstMatchFinds(supers[c], flat, name);
    }

    /** An entry in a class that comes too late is copied, and stays. */
    lemma StaleIsCopied<V>(members: map<C, Table<V>>, flat0: map<C, Table<V>>, order: seq<C>, k: nat, s: C,
                           name: string)
      requires Valid() && members.Keys == supers.Keys == flat0.Keys && Covers(order)
      requires k < |order| && order[k] in supers && s in supers[order[k]] && s in below && s !in order[..k]
      requires name in flat0[s] && name !in members[order[k]]
      ensures Swept(supers, members, flat0, order, |order|).Keys == supers.Keys
      ensures order[k] in supers && name in Swept(supers, members, flat0, order, |order|)[order[k]]
    {
      SweptKeys(supers, members, flat0, order, k);
      SweptKeys(supers, members, flat0, order, |order|);
      SweptElsewhere(supers, members, flat0, order, k, s);
      VisitCopies(members, Swept(supers, members, flat0, order, k), order[k], s, name);
      TableStays(supers, members, flat0, order, k, |order|);
    }

    /** An order that meets a class before one of its superclasses leaves wrong tables, for some tables before. */
    lemma UnsortedGoesStale<V>(members: map<C, Table<V>>, order: seq<C>, v: V) returns (flat0: map<C, Table<V>>)
      requires Valid() && members.Keys == supers.Keys && Covers(order) && !Topological(order)
      ensures Fitting(members, flat0) && Swept(supers, members, flat0, order, |order|).Keys == supers.Keys
      ensures !Coherent(supers, rank, members, Swept(supers, members, flat0, order, |order|))
    {
      var k, s :| 0 <= k < |order| && order[k] in supers && s in supers[order[k]] && s in below && s !in order[..k];
      var name := FreshName(members);
      var flat := TrueTablesFit(supers, rank, members);
      flat0 := flat[s := flat[s][name := v]];
      forall c | c in supers && c !in below ensures LinkedForAll(supers, members, flat0, c) {
        CoherentIsLinked(supers, rank, members, flat, c);
        assert s !in supers[c];
        LinkedKept(supers, members, flat, flat0, c);
      }
      StaleIsCopied(members, flat0, order, k, s, name);
      UndefinedIsNotFound(supers, rank, members, order[k], name);
      assert !CoherentAt(supers, rank, members, Swept(supers, members, flat0, order, |order|), name);
    }

    /** One order leaves right tables, whatever they were, exactly when it meets superclasses first. */
    lemma RepairsIffTopological<V(!new)>(members: map<C, Table<V>>, order: seq<C>, v: V)
      requires Valid() && members.Keys == supers.Keys && Covers(order)
      ensures (forall flat0 :: Fitting(members, flat0) ==> Repaired(members, flat0, order)) <==> Topological(order)
    {
      if Topological(order) {
        forall flat0 | Fitting(members, flat0)
          ensures Repaired(members, flat0, order)
        {
          TopologicalRepairs(members, flat0, order);
        }
      } else {
        var flat0 := UnsortedGoesStale(members, order, v);
      }
    }

    // ---- which orders the walk can take ----

    lemma {:induction false} QueueIsLayered(level: map<C, nat>, qs: seq<seq<C>>, k: nat)
      requires Valid() && Distances(supers, below, via, level) && Rounds(subs, self, qs) && k < |qs|
      ensures Layered(level, qs[k], k)
      decreases k
    {
      if k > 0 {
        QueueIsLayered(level, qs, k - 1);
        QueueIsWalk(qs, k - 1);
        assert RoundAt(subs, qs, k - 1);
        var added := NewlyQueued(qs[k - 1], qs[k], subs[qs[k - 1][k - 1]]);
        LayeredStep(supers, subs, rank, self, below, via, level, qs[k - 1], k - 1, added);
      }
    }

    /** Every walk over a levelled hierarchy meets superclasses first. */
    lemma LevelledIsTopological(level: map<C, nat>, qs: seq<seq<C>>)
      requires Valid() && LevelledIn(supers, below, level) && Finished(subs, self, qs)
      ensures Topological(Order(qs))
    {
      var order := Order(qs);
      LevelsAreDistances(supers, self, below, via, level);
      forall k, s {:trigger s in supers[order[k]]} |
        0 <= k < |order| && order[k] in supers && s in supers[order[k]] && s in below
        ensures s in order[..k]
      {
        QueueIsWalk(qs, k);
        QueueIsLayered(level, qs, k);
        QueuesGrow(qs, k, |qs| - 1);
        assert RoundAt(subs, qs, k);
        assert qs[k][..k] == order[..k] && qs[k][k] == order[k];
        LowerLevelsAreDone(supers, subs, rank, self, below, via, level, qs[k], k, s);
      }
    }

    // ---- distances exist ----

    /** The length of a shortest way up to `self`. */
    ghost function Depth(c: C): nat
      requires Valid() && c in below
      decreases rank[c], 1, 0
    {
      if c == self then 0
      else
        assert via[c] in supers[c];
        1 + LeastDepth(supers[c], rank[c])
    }

    ghost function LeastDepth(list: seq<C>, bound: nat): nat
      requires Valid() && forall s :: s in list ==> s in supers && rank[s] < bound
      decreases bound, 0, |list|
    {
      if list == [] then 0
      else if list[0] !in below then LeastDepth(list[1..], bound)
      else if (exists s :: s in list[1..] && s in below) && LeastDepth(list[1..], bound) < Depth(list[0]) then
        LeastDepth(list[1..], bound)
      else Depth(list[0])
    }

    lemma {:induction false} LeastDepthIsLeast(list: seq<C>, bound: nat) returns (nearest: C)
      requires Valid() && (forall s :: s in list ==> s in supers && rank[s] < bound)
      requires exists s :: s in list && s in below
      ensures nearest in list && nearest in below && Depth(nearest) == LeastDepth(list, bound)
      ensures forall s :: s in list && s in below ==> LeastDepth(list, bound) <= Depth(s)
      decreases |list|
    {
      assert forall s :: s in list <==> s == list[0] || s in list[1..];
      if exists s :: s in list[1..] && s in below {
        nearest := LeastDepthIsLeast(list[1..], bound);
        if list[0] in below && Depth(list[0]) <= Depth(nearest) {
          nearest := list[0];
        }
      } else {
        nearest := list[0];
      }
    }

    lemma NearestSuper(c: C) returns (s: C)
      requires Valid() && c in below && c != self
      ensures s in supers[c] && s in below && Depth(c) == Depth(s) + 1
      ensures forall x :: x in supers[c] && x in below ==> Depth(c) <= Depth(x) + 1
    {
      assert via[c] in supers[c];
      s := LeastDepthIsLeast(supers[c], rank[c]);
    }

    /** The same region, its ways up being shortest ones, and the distances along them. */
    lemma Shortest() returns (r: Region<C>, level: map<C, nat>)
      requires Valid()
      ensures r.Valid() && r == this.(via := r.via) && Distances(supers, below, r.via, level) && level[self] == 0
    {
      level := map c | c in supers :: if c in below then Depth(c) else 0;
      forall c | c in below && c != self
        ensures exists s :: s in supers[c] && s in below && Depth(c) == Depth(s) + 1
      {
        var s := NearestSuper(c);
      }
      var via' := map c | c in below && c != self ::
                    var s :| s in supers[c] && s in below && Depth(c) == Depth(s) + 1; s;
      r := this.(via := via');
      forall c, s {:trigger s in supers[c]} | c in supers && s in supers[c] && s in below && s in supers
        ensures level[c] <= level[s] + 1
      {
        if c != self {
          var _ := NearestSuper(c);
        }
      }
    }

    lemma EqualWaysIsTopological(qs: seq<seq<C>>)
      requires Valid() && EqualWays(supers, rank, self) && Finished(subs, self, qs)
      requires forall c :: c in below <==> c in supers && SubclassOf(supers, rank, c, self)
      ensures Topological(Order(qs))
    {
      LevelledIsTopological(map c | c in supers :: Steps(supers, rank, self, c), qs);
    }

    /** The classes a finished walk meets. */
    lemma WalkMeets(qs: seq<seq<C>>)
      requires Valid() && Finished(subs, self, qs)
      requires forall c :: c in below <==> c in supers && SubclassOf(supers, rank, c, self)
      ensures forall i, j :: 0 <= i < j < |Order(qs)| ==> Order(qs)[i] != Order(qs)[j]
      ensures forall c :: c in Order(qs) <==> c in supers && SubclassOf(supers, rank, c, self)
      ensures EqualWays(supers, rank, self) ==> Topological(Order(qs))
    {
      FinishedIsComplete(qs);
      if EqualWays(supers, rank, self) {
        EqualWaysIsTopological(qs);
      }
    }

    /** The tables it leaves. */
    lemma WalkLeaves<V>(members: map<C, Table<V>>, flat0: map<C, Table<V>>, qs: seq<seq<C>>)
      requires Valid() && members.Keys == supers.Keys == flat0.Keys && Finished(subs, self, qs)
      ensures var flat := Swept(supers, members, flat0, Order(qs), |Order(qs)|);
              && flat.Keys == supers.Keys && (forall c :: c in supers && c !in Order(qs) ==> flat[c] == flat0[c])
              && (Fitting(members, flat0) && Topological(Order(qs)) ==> Coherent(supers, rank, members, flat))
    {
      var order := Order(qs);
      FinishedIsComplete(qs);
      SweptKeys(supers, members, flat0, order, |order|);
      forall c | c in supers && c !in order
        ensures c in flat0 && Swept(supers, members, flat0, order, |order|)[c] == flat0[c]
      {
        SweptElsewhere(supers, members, flat0, order, |order|, c);
      }
      if Fitting(members, flat0) && Topological(order) {
        TopologicalRepairs(members, flat0, order);
      }
    }

    // ---- a walk that meets a given class as early as it can ----

    /** A shortest way from `self` down to a class. */
    ghost predicate Chain(level: map<C, nat>, chain: seq<C>) {
      && chain != []
      && (forall i :: 0 <= i < |chain| ==> chain[i] in below && chain[i] in level && level[chain[i]] == i)
      && (forall i {:trigger chain[i] in via} :: 0 < i < |chain| ==> chain[i] in via && via[chain[i]] == chain[i - 1])
    }

    lemma {:induction false} ChainTo(level: map<C, nat>, c: C) returns (chain: seq<C>)
      requires Valid() && Distances(supers, below, via, level) && level[self] == 0 && c in below
      ensures Chain(level, chain) && chain[0] == self && chain[|chain| - 1] == c && |chain| == level[c] + 1
      decreases rank[c]
    {
      if c == self {
        chain := [self];
      } else {
        assert via[c] in supers[c];
        chain := ChainTo(level, via[c]);
        chain := chain + [c];
      }
    }

    lemma ChainLinks(level: map<C, nat>, chain: seq<C>, l: nat)
      requires Valid() && Chain(level, chain) && l + 1 < |chain|
      ensures chain[l] in subs && chain[l + 1] in subs[chain[l]]
    {
      var c := chain[l + 1];
      assert c in via && via[c] == chain[l];
      assert via[c] in supers[c] && c in supers;
    }

    lemma ChainGoesOn(level: map<C, nat>, chain: seq<C>, order: seq<C>, done: nat)
      requires Valid() && Chain(level, chain) && Walk(subs, self, below, order, done) && done < |order|
      requires FavouredAt(level, chain, order, done)
      requires level[order[done]] + 1 < |chain| && chain[level[order[done]] + 1] !in order
      ensures chain[level[order[done]] + 1] in subs[order[done]]
    {
      var l := level[order[done]];
      ChainLinks(level, chain, l);
      LastToQueue(subs, order, done, chain[l], chain[l + 1]);
    }

    lemma FavouringRound(level: map<C, nat>, chain: seq<C>, order: seq<C>, done: nat) returns (order': seq<C>)
      requires Valid() && Distances(supers, below, via, level) && Chain(level, chain)
      requires Walk(subs, self, below, order, done) && done < |order| && Favoured(level, chain, order)
      requires Layered(level, order, done)
      ensures Round(subs, order, done, order') && Favoured(level, chain, order')
    {
      assert FavouredAt(level, chain, order, done);
      var l := level[order[done]] + 1;
      if l < |chain| && chain[l] !in order {
        ChainGoesOn(level, chain, order, done);
      }
      var added := NewFirst(subs[order[done]], order, if l < |chain| then Some(chain[l]) else None);
      forall c | c in added ensures c in level && level[c] == l {
        QueuedIsNext(supers, subs, rank, self, below, via, level, order, done, c);
      }
      FavouredAppend(level, chain, order, added, l);
      order' := order + added;
      AppendIsRound(subs, order, done, added);
    }

    /** A round of the favouring walk, added to the rounds before it. */
    lemma FavouringRoundAdded(level: map<C, nat>, chain: seq<C>, qs: seq<seq<C>>) returns (qs': seq<seq<C>>)
      requires Valid() && Distances(supers, below, via, level) && Chain(level, chain)
      requires Rounds(subs, self, qs) && |qs| - 1 < |Order(qs)| && Favoured(level, chain, Order(qs))
      ensures Rounds(subs, self, qs') && |qs'| == |qs| + 1 && Favoured(level, chain, Order(qs'))
    {
      var k := |qs| - 1;
      QueueIsWalk(qs, k);
      QueueIsLayered(level, qs, k);
      var next := FavouringRound(level, chain, qs[k], k);
      qs' := qs + [next];
      RoundAdded(subs, self, qs, next);
    }

    /** A walk has no more rounds than there are classes. */
    lemma RoundsAreBounded(qs: seq<seq<C>>)
      requires Valid() && Rounds(subs, self, qs)
      ensures |qs| - 1 <= |Order(qs)| <= |supers.Keys|
    {
      QueueIsWalk(qs, |qs| - 1);
      var met := Met(Order(qs));
      assert met <= supers.Keys;
      SubsetSize(met, supers.Keys);
    }

    /** One more round of a walk. */
    lemma RoundOn(qs: seq<seq<C>>, queue: seq<C>) returns (qs': seq<seq<C>>)
      requires Valid() && Rounds(subs, self, qs) && |qs| - 1 < |Order(qs)| && Order(qs)[|qs| - 1] in subs
      requires |Order(qs)| <= |queue| && Order(qs) == queue[..|Order(qs)|]
      requires forall c :: c in queue <==> c in Order(qs) || c in subs[Order(qs)[|qs| - 1]]
      requires forall i, j :: |Order(qs)| <= i < j < |queue| ==> queue[i] != queue[j]
      requires forall i :: |Order(qs)| <= i < |queue| ==> queue[i] !in Order(qs)
      ensures Rounds(subs, self, qs') && Order(qs') == queue && |qs'| == |qs| + 1 <= |supers.Keys| + 1
    {
      qs' := qs + [queue];
      assert forall c :: c in subs[Order(qs)[|qs| - 1]] ==> c in queue;
      RoundAdded(subs, self, qs, queue);
      RoundsAreBounded(qs');
    }

    lemma {:induction false} FavouringWalk(level: map<C, nat>, chain: seq<C>, qs: seq<seq<C>>)
      returns (qs': seq<seq<C>>)
      requires Valid() && Distances(supers, below, via, level) && Chain(level, chain)
      requires Rounds(subs, self, qs) && Favoured(level, chain, Order(qs))
      ensures Finished(subs, self, qs') && Favoured(level, chain, Order(qs'))
      decreases |supers.Keys| + 1 - |qs|
    {
      RoundsAreBounded(qs);
      if |qs| - 1 == |Order(qs)| {
        qs' := qs;
      } else {
        qs' := FavouringRoundAdded(level, chain, qs);
        RoundsAreBounded(qs');
        qs' := FavouringWalk(level, chain, qs');
      }
    }

    /** A class that is no further than one of its superclasses: some walk meets the class first. */
    lemma UnevenEdgeIsUnsorted(level: map<C, nat>, c: C, s: C) returns (qs: seq<seq<C>>)
      requires Valid() && Distances(supers, below, via, level) && level[self] == 0
      requires c in below && s in supers[c] && s in below && level[c] <= level[s]
      ensures Finished(subs, self, qs) && !Topological(Order(qs))
    {
      var chain := ChainTo(level, c);
      var start := [[self]];
      assert FavouredAt(level, chain, [self], 0);
      qs := FavouringWalk(level, chain, start);
      FinishedIsComplete(qs);
      QueueIsLayered(level, qs, |qs| - 1);
      var order := Order(qs);
      var i :| 0 <= i < |order| && order[i] == c;
      forall j | 0 <= j < i ensures level[order[j]] < level[c] {
        assert FavouredAt(level, chain, order, j);
        assert level[order[j]] <= level[order[i]];
        assert c !in order[..j + 1];
      }
      assert s !in order[..i];
    }

    /**
      The walk always leaves right tables, in whatever order it visits subclasses and whatever stale entries the tables
      at and below the redefined class have, exactly when all ways down to each class are equally long.
     */
    lemma WalksRepairIffLevelled<V(!new)>(members: map<C, Table<V>>, v: V)
      requires Valid() && members.Keys == supers.Keys
      ensures (forall qs, flat0 :: Finished(subs, self, qs) && Fitting(members, flat0) ==>
                 Repaired(members, flat0, Order(qs)))
         <==> exists level :: LevelledIn(supers, below, level)
    {
      forall qs | Finished(subs, self, qs)
        ensures Covers(Order(qs))
      {
        FinishedIsComplete(qs);
      }
      if level :| LevelledIn(supers, below, level) {
        forall qs, flat0 | Finished(subs, self, qs) && Fitting(members, flat0)
          ensures Repaired(members, flat0, Order(qs))
        {
          LevelledIsTopological(level, qs);
          TopologicalRepairs(members, flat0, Order(qs));
        }
      } else {
        var qs := SomeWalkIsUnsorted();
        var flat0 := UnsortedGoesStale(members, Order(qs), v);
      }
    }

    lemma SomeWalkIsUnsorted() returns (qs: seq<seq<C>>)
      requires Valid() && !exists level :: LevelledIn(supers, below, level)
      ensures Finished(subs, self, qs) && !Topological(Order(qs))
    {
      var r, level := Shortest();
      assert !LevelledIn(supers, below, level);
      var c, s :| c in supers && s in supers[c] && s in below && s in supers && level[c] != level[s] + 1;
      qs := r.UnevenEdgeIsUnsorted(level, c, s);
    }
  }

  /** Of the classes on one level the one on the chain comes first. */
  ghost predicate Favoured<C>(level: map<C, nat>, chain: seq<C>, order: seq<C>) {
    forall j :: 0 <= j < |order| ==> FavouredAt(level, chain, order, j)
  }

  ghost predicate FavouredAt<C>(level: map<C, nat>, chain: seq<C>, order: seq<C>, j: nat)
    requires j < |order|
  {
    order[j] in level && (level[order[j]] < |chain| ==> chain[level[order[j]]] in order[..j + 1])
  }

  lemma FavouredAppend<C>(level: map<C, nat>, chain: seq<C>, order: seq<C>, added: seq<C>, l: nat)
    requires Favoured(level, chain, order) && forall c :: c in added ==> c in level && level[c] == l
    requires l < |chain| && added != [] ==> chain[l] in order || added[0] == chain[l]
    ensures Favoured(level, chain, order + added)
  {
    var order' := order + added;
    forall j | 0 <= j < |order'|
      ensures FavouredAt(level, chain, order', j)
    {
      if j < |order| {
        assert FavouredAt(level, chain, order, j);
        assert order'[..j + 1] == order[..j + 1];
      } else {
        assert order'[j] in added;
        assert order'[..j + 1] == order + added[..j + 1 - |order|];
        assert added[..j + 1 - |order|][0] == added[0];
      }
    }
  }

  /** A class that is not queued can only be a subclass of classes whose round is still to come. */
  lemma LastToQueue<C>(subs: map<C, set<C>>, order: seq<C>, done: nat, p: C, next: C)
    requires done < |order| && p in order[..done + 1] && p in subs && next in subs[p] && next !in order
    requires forall i :: 0 <= i < done ==> order[i] in subs
    requires forall i, s {:trigger s in subs[order[i]]} :: 0 <= i < done && s in subs[order[i]] ==> s in order
    ensures p == order[done]
  {
    var i :| 0 <= i < done + 1 && order[i] == p;
  }

  /** What a round queues, a given class first if it is among them. */
  lemma NewFirst<C>(classes: set<C>, order: seq<C>, first: Option<C>) returns (added: seq<C>)
    ensures forall i, j :: 0 <= i < j < |added| ==> added[i] != added[j]
    ensures forall c :: c in added <==> c in classes && c !in order
    ensures first.Some? && first.value in classes && first.value !in order ==> added != [] && added[0] == first.value
  {
    var more := set c | c in classes && c !in order;
    if first.Some? && first.value in more {
      var rest := Listed(more - {first.value});
      added := [first.value] + rest;
    } else {
      added := Listed(more);
    }
  }

  lemma AppendIsRound<C>(subs: map<C, set<C>>, order: seq<C>, done: nat, added: seq<C>)
    requires done < |order| && order[done] in subs
    requires forall i, j :: 0 <= i < j < |added| ==> added[i] != added[j]
    requires forall c :: c in added <==> c in subs[order[done]] && c !in order
    ensures Round(subs, order, done, order + added)
  {
    var order' := order + added;
    forall i | |order| <= i < |order'| ensures order'[i] !in order {
      assert order'[i] in added;
    }
  }

  lemma {:induction false} Listed<T>(xs: set<T>) returns (list: seq<T>)
    ensures forall i, j :: 0 <= i < j < |list| ==> list[i] != list[j]
    ensures forall x :: x in list <==> x in xs
    decreases |xs|
  {
    list := [];
    if xs != {} {
      var x :| x in xs;
      list := Listed(xs - {x});
      list := [x] + list;
    }
  }
}
