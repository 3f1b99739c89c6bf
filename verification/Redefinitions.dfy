/**
  Redefining a class where every table is right: on which hierarchies the walk leaves every table right, whatever the
  superclasses that the class had, the members, and the other classes there are.
 */
module Redefinitions {
  import opened Wrappers

  import opened ClassGraph
  import opened Relinking
  import opened Walks

  /**
    A redefinition: `r` is the hierarchy with the new superclasses of `r.self`, which had the superclasses `olds`, and
    `flat` are the tables from before.
   */
  datatype Redefinition<C(==), V> = Redefinition(
    r: Region<C>, olds: seq<C>, rank: map<C, nat>, members: map<C, Table<V>>, flat: map<C, Table<V>>)
  {
    /** The superclass links from before. */
    function Before(): map<C, seq<C>> {
      r.supers[r.self := olds]
    }

    /** The hierarchy was acyclic and every table was right. */
    ghost predicate FromRight() {
      && r.Valid() && Ranked(Before(), rank) && members.Keys == r.supers.Keys == flat.Keys
      && Before().Keys == r.supers.Keys && Coherent(Before(), rank, members, flat)
    }

    /** Tables that were right are still right for the classes that are not below. */
    lemma RightFits()
      requires FromRight()
      ensures r.Fitting(members, flat)
    {
      forall c | c in r.supers && c !in r.below ensures LinkedForAll(r.supers, members, flat, c) {
        forall name: string ensures Linked(r.supers, members, flat, c, name) {
          assert CoherentAt(Before(), rank, members, flat, name);
          CoherentIffLinked(Before(), rank, members, flat, name);
          assert Linked(Before(), members, flat, c, name);
        }
      }
    }
  }

  /** The same class with the same classes below it, and possibly more classes elsewhere. */
  ghost predicate Widens<C>(r: Region<C>, r': Region<C>) {
    && r'.Valid() && r'.self == r.self && r'.below == r.below && r.supers.Keys <= r'.supers.Keys
    && forall c :: c in r.supers ==> r'.supers[c] == r.supers[c]
  }

  lemma WiderIsLevelled<C(!new)>(r: Region<C>, r': Region<C>)
    requires r.Valid() && Widens(r, r')
    ensures (exists level :: LevelledIn(r.supers, r.below, level))
       <==> (exists level :: LevelledIn(r'.supers, r.below, level))
  {
    if level :| LevelledIn(r.supers, r.below, level) {
      var level': map<C, nat> := map c | c in r'.supers :: if c in level then level[c] else 0;
      forall c, s {:trigger s in r'.supers[c]} |
        c in r'.supers && s in r'.supers[c] && s in r.below && s in r'.supers
        ensures level'[c] == level'[s] + 1
      {
        assert c in r.below && s in r.supers[c];
      }
      assert LevelledIn(r'.supers, r.below, level');
    }
    if level' :| LevelledIn(r'.supers, r.below, level') {
      var level: map<C, nat> := map c | c in r.supers :: level'[c];
      forall c, s {:trigger s in r.supers[c]} |
        c in r.supers && s in r.supers[c] && s in r.below && s in r.supers
        ensures level[c] == level[s] + 1
      {
        assert s in r'.supers[c];
      }
      assert LevelledIn(r.supers, r.below, level);
    }
  }

  // ---- a class that loses a member it had inherited ----

  const LOST := "lost"

  /** Another class, without superclasses or subclasses. */
  function WithOther<C(==)>(r: Region<C>, q: C): Region<C> {
    r.(supers := r.supers[q := []], subs := r.subs[q := {}], rank := r.rank[q := 0])
  }

  lemma OtherWidens<C>(r: Region<C>, q: C)
    requires r.Valid() && q !in r.supers
    ensures Widens(r, WithOther(r, q))
  {
  }

  function Owning<C, V>(r: Region<C>, q: C, v: V): map<C, Table<V>> {
    map c | c in r.supers :: if c == q then map[LOST := v] else map[]
  }

  /** What `q` owned was inherited by the class and all below. */
  function Inheriting<C, V>(r: Region<C>, q: C, v: V): map<C, Table<V>> {
    map c | c in r.supers :: if c == q || c in r.below then map[LOST := v] else map[]
  }

  function RankBefore<C>(r: Region<C>, q: C): map<C, nat> {
    map c | c in r.supers :: if c == q then 0 else (if c in r.rank then r.rank[c] else 0) + 1
  }

  /** The class had `q` for its superclass. */
  function Losing<C(==), V>(r: Region<C>, q: C, v: V): Redefinition<C, V> {
    Redefinition(r, [q], RankBefore(r, q), Owning(r, q, v), Inheriting(r, q, v))
  }

  /** `q` is no class's superclass any more, and has none. */
  ghost predicate Apart<C>(r: Region<C>, q: C) {
    r.Valid() && q in r.supers && q !in r.below && r.supers[q] == [] && forall c :: c in r.supers ==> q !in r.supers[c]
  }

  lemma LosingIsLinked<C, V>(r: Region<C>, q: C, v: V, c: C, name: string)
    requires Apart(r, q) && c in r.supers
    ensures Losing(r, q, v).Before().Keys == r.supers.Keys
    ensures forall s :: s in Losing(r, q, v).Before()[c] ==> s in r.supers
    ensures Linked(Losing(r, q, v).Before(), Owning(r, q, v), Inheriting(r, q, v), c, name)
  {
    var supers, flat := Losing(r, q, v).Before(), Inheriting(r, q, v);
    if c == r.self {
      assert [q][1..] == [];
    } else if c != q {
      if c in r.below {
        assert r.via[c] in supers[c];
      }
      AllOrNone(supers[c], flat, name, r.below, v);
    }
  }

  /** Where exactly the classes below have the member, the search finds it if one of them is listed. */
  lemma {:induction false} AllOrNone<C, V>(list: seq<C>, flat: map<C, Table<V>>, name: string, below: set<C>, v: V)
    requires forall s :: s in list ==> s in flat && flat[s] == if s in below then map[LOST := v] else map[]
    ensures FirstMatch(list, flat, name) ==
            if name == LOST && (exists s :: s in list && s in below) then Some(v) else None
    decreases |list|
  {
    if list != [] {
      assert list[0] in list;
      AllOrNone(list[1..], flat, name, below, v);
      assert forall s :: s in list ==> s == list[0] || s in list[1..];
    }
  }

  lemma LosingIsFromRight<C, V>(r: Region<C>, q: C, v: V)
    requires Apart(r, q)
    ensures Losing(r, q, v).FromRight()
  {
    var d := Losing(r, q, v);
    LosingIsLinked(r, q, v, q, LOST);
    forall name: string ensures CoherentAt(d.Before(), d.rank, d.members, d.flat, name) {
      forall c | c in d.Before() ensures Linked(d.Before(), d.members, d.flat, c, name) {
        LosingIsLinked(r, q, v, c, name);
      }
      CoherentIffLinked(d.Before(), d.rank, d.members, d.flat, name);
    }
  }

  /** Afterwards only `q` itself has the member. */
  lemma {:induction false} LostIsNotFound<C, V>(r: Region<C>, q: C, v: V, c: C)
    requires Apart(r, q) && c in r.supers && c != q
    ensures Lookup(r.supers, r.rank, Owning(r, q, v), c, LOST) == None
    decreases r.rank[c], 1, 0
  {
    LostIsNotFoundIn(r, q, v, r.supers[c], r.rank[c]);
  }

  lemma {:induction false} LostIsNotFoundIn<C, V>(r: Region<C>, q: C, v: V, list: seq<C>, bound: nat)
    requires Apart(r, q) && forall s :: s in list ==> s in r.supers && s != q && r.rank[s] < bound
    ensures LookupIn(r.supers, r.rank, Owning(r, q, v), list, bound, LOST) == None
    decreases bound, 0, |list|
  {
    if list != [] {
      assert list[0] in list;
      LostIsNotFound(r, q, v, list[0]);
      LostIsNotFoundIn(r, q, v, list[1..], bound);
    }
  }

  /** A walk that meets a class before one of its superclasses copies the member from there. */
  lemma LostIsCopied<C, V>(r: Region<C>, q: C, v: V, order: seq<C>)
    requires Apart(r, q) && r.Covers(order) && !r.Topological(order)
    ensures !r.Repaired(Owning(r, q, v), Inheriting(r, q, v), order)
  {
    var members, flat := Owning(r, q, v), Inheriting(r, q, v);
    var k, s :| 0 <= k < |order| && order[k] in r.supers && s in r.supers[order[k]] && s in r.below
             && s !in order[..k];
    r.StaleIsCopied(members, flat, order, k, s, LOST);
    LostIsNotFound(r, q, v, order[k]);
    assert !CoherentAt(r.supers, r.rank, members, Swept(r.supers, members, flat, order, |order|), LOST);
  }

  /** Every redefinition of the class ends with right tables. */
  ghost predicate AlwaysRepaired<C(!new), V(!new)>(r: Region<C>) {
    forall d: Redefinition<C, V>, qs ::
      Widens(r, d.r) && d.FromRight() && Finished(d.r.subs, d.r.self, qs) ==>
        d.r.Repaired(d.members, d.flat, Order(qs))
  }

  lemma LevelledRepairs<C(!new), V>(r: Region<C>, d: Redefinition<C, V>, qs: seq<seq<C>>)
    requires r.Valid() && Widens(r, d.r) && d.FromRight() && Finished(d.r.subs, d.r.self, qs)
    requires exists level :: LevelledIn(r.supers, r.below, level)
    ensures d.r.Repaired(d.members, d.flat, Order(qs))
  {
    WiderIsLevelled(r, d.r);
    var level :| LevelledIn(d.r.supers, r.below, level);
    d.RightFits();
    d.r.FinishedIsComplete(qs);
    d.r.LevelledIsTopological(level, qs);
    d.r.TopologicalRepairs(d.members, d.flat, Order(qs));
  }

  /**
    A class is redefined where every table is right, with the classes at and below it as they are.  Whatever
    superclasses it had before, whatever the members and whatever other classes there are: every walk leaves every table
    right exactly when all ways down to each class are equally long.
   */
  lemma RedefinitionRepairsIffLevelled<C(!new), V(!new)>(r: Region<C>, q: C, v: V)
    requires r.Valid() && q !in r.supers
    ensures AlwaysRepaired<C, V>(r) <==> exists level :: LevelledIn(r.supers, r.below, level)
  {
    if exists level :: LevelledIn(r.supers, r.below, level) {
      forall d: Redefinition<C, V>, qs | Widens(r, d.r) && d.FromRight() && Finished(d.r.subs, d.r.self, qs)
        ensures d.r.Repaired(d.members, d.flat, Order(qs))
      {
        LevelledRepairs(r, d, qs);
      }
    } else {
      var r' := WithOther(r, q);
      OtherWidens(r, q);
      WiderIsLevelled(r, r');
      var qs := r'.SomeWalkIsUnsorted();
      r'.FinishedIsComplete(qs);
      LosingIsFromRight(r', q, v);
      LostIsCopied(r', q, v, Order(qs));
      assert !Losing(r', q, v).r.Repaired(Losing(r', q, v).members, Losing(r', q, v).flat, Order(qs));
    }
  }
}
