/**
  Why `updateinheritance` needs equally long paths: a redefinition that leaves a table wrong.

  D inherits from B, E and A, in that order; B reaches A through M.  When A gets the superclass Z, the
  breadth-first walk meets D, one step below A, before B, two steps below: D copies B's table
  too early and keeps the member of E that the one of Z should hide.
*/
module UnevenDiamond {
  import opened Wrappers

  import opened ClassGraph
  import opened Relinking
  import opened Walks

  datatype Class = A | M | B | D | Z | E

  const CLASSES := {A, M, B, D, Z, E}
  const NAME := "pool"

  function Parents(c: Class, redefined: bool): seq<Class> {
    match c
    case A => if redefined then [Z] else []
    case M => [A]
    case B => [M]
    case D => [B, E, A]
    case Z => []
    case E => []
  }

  function Children(c: Class, redefined: bool): set<Class> {
    match c
    case A => {M, D}
    case M => {B}
    case B => {D}
    case D => {}
    case Z => if redefined then {A} else {}
    case E => {D}
  }

  function RankOf(c: Class): nat {
    match c
    case A => 1 case M => 2 case B => 3 case D => 4 case Z => 0 case E => 0
  }

  function Own(c: Class): Table<int> {
    match c
    case Z => map[NAME := 1]
    case E => map[NAME := 2]
    case _ => map[]
  }

  function Supers(redefined: bool): map<Class, seq<Class>> { map c | c in CLASSES :: Parents(c, redefined) }
  function Subs(redefined: bool): map<Class, set<Class>> { map c | c in CLASSES :: Children(c, redefined) }
  function Rank(): map<Class, nat> { map c | c in CLASSES :: RankOf(c) }
  function Members(): map<Class, Table<int>> { map c | c in CLASSES :: Own(c) }
  /** The tables while A has no superclass: only D inherits anything, from E. */
  function Before(): map<Class, Table<int>> { map c | c in CLASSES :: if c == D then map[NAME := 2] else Own(c) }

  lemma Linkage(redefined: bool)
    ensures Ranked(Supers(redefined), Rank())
  {
  }

  /** The subclass links are the ones that the superclass links call for. */
  lemma SubLinkage(redefined: bool)
    ensures Inverse(Supers(redefined), Subs(redefined))
  {
    forall c, s ensures s in Children(c, redefined) <==> c in Parents(s, redefined) {
      ChildOf(c, s, redefined);
    }
    forall c ensures c in CLASSES {
      assert c.A? || c.M? || c.B? || c.D? || c.Z? || c.E?;
    }
  }

  lemma ChildOf(c: Class, s: Class, redefined: bool)
    ensures s in Children(c, redefined) <==> c in Parents(s, redefined)
  {
    match s
    case A => case M => case B => case D => case Z => case E =>
  }

  lemma LinkedBefore(c: Class, name: string)
    requires c in CLASSES
    ensures forall s :: s in Supers(false)[c] ==> s in Supers(false)
    ensures Linked(Supers(false), Members(), Before(), c, name)
  {
    var parents, flat := Parents(c, false), Before();
    match c
    case A => case Z => case E =>
    case M => assert parents == [A] && parents[1..] == [];
    case B => assert parents == [M] && parents[1..] == [];
    case D =>
      assert parents[1..] == [E, A] && name !in flat[B];
      assert parents[1..][1..] == [A] && name !in flat[A];
      FirstMatchFinds([A], flat, name);
  }

  /** Before A is redefined every table is right. */
  lemma RightBefore()
    ensures Ranked(Supers(false), Rank()) && Coherent(Supers(false), Rank(), Members(), Before())
    ensures Supers(true) == Supers(false)[A := [Z]]
  {
    Linkage(false);
    forall name: string ensures CoherentAt(Supers(false), Rank(), Members(), Before(), name) {
      forall c | c in Supers(false) ensures Linked(Supers(false), Members(), Before(), c, name) {
        LinkedBefore(c, name);
      }
      CoherentIffLinked(Supers(false), Rank(), Members(), Before(), name);
    }
  }

  // ---- the walks from A ----

  lemma ListsTwo(list: seq<Class>, x: Class, y: Class)
    requires x != y && (forall i, j :: 0 <= i < j < |list| ==> list[i] != list[j])
    requires forall c :: c in list <==> c in {x, y}
    ensures list == [x, y] || list == [y, x]
  {
    var met := Met(list);
    assert met == {x, y} && |list| == 2;
    assert list[0] in list && list[1] in list;
  }

  lemma ListsOne(list: seq<Class>, x: Class)
    requires (forall i, j :: 0 <= i < j < |list| ==> list[i] != list[j]) && forall c :: c in list <==> c == x
    ensures list == [x]
  {
    var met := Met(list);
    assert met == {x} && |list| == 1;
    assert list[0] in list;
  }

  lemma ListsNone(list: seq<Class>)
    requires (forall i, j :: 0 <= i < j < |list| ==> list[i] != list[j]) && forall c :: c !in list
    ensures list == []
  {
    var met := Met(list);
    assert met == {};
  }

  /** The queue of a walk from A after `k` rounds. */
  predicate QueueAfter(k: nat, queue: seq<Class>) {
    match k
    case 0 => queue == [A]
    case 1 => queue == [A, M, D] || queue == [A, D, M]
    case 2 => queue == [A, M, D, B] || queue == [A, D, M]
    case 3 => queue == [A, M, D, B] || queue == [A, D, M, B]
    case _ => k == 4 && (queue == [A, M, D, B] || queue == [A, D, M, B])
  }

  lemma RoundFromA(k: nat, queue: seq<Class>, queue': seq<Class>)
    requires QueueAfter(k, queue) && k < 4 && Round(Subs(true), queue, k, queue')
    ensures QueueAfter(k + 1, queue')
  {
    var added := NewlyQueued(queue, queue', Subs(true)[queue[k]]);
    assert Subs(true)[queue[k]] == Children(queue[k], true);
    if k == 0 {
      ListsTwo(added, M, D);
    } else if queue[k] == M {
      ListsOne(added, B);
    } else {
      ListsNone(added);
    }
  }

  lemma {:induction false} WalkFromA(qs: seq<seq<Class>>, k: nat)
    requires Rounds(Subs(true), A, qs) && k < |qs|
    ensures QueueAfter(k, qs[k])
  {
    if k > 0 {
      WalkFromA(qs, k - 1);
      assert RoundAt(Subs(true), qs, k - 1);
      RoundFromA(k - 1, qs[k - 1], qs[k]);
    }
  }

  /** Every walk from A meets D before B, one of its superclasses. */
  lemma DComesFirst(qs: seq<seq<Class>>)
    requires Finished(Subs(true), A, qs)
    ensures Order(qs) == [A, M, D, B] || Order(qs) == [A, D, M, B]
  {
    WalkFromA(qs, |qs| - 1);
  }

  // ---- the tables they leave ----

  /** What a class takes from the tables of its superclasses. */
  function Taken(flat: map<Class, Table<int>>, c: Class): Option<int>
    requires flat.Keys == CLASSES
  {
    match c
    case A => Get(flat[Z], NAME)
    case M => Get(flat[A], NAME)
    case B => Get(flat[M], NAME)
    case D =>
      if NAME in flat[B] then Get(flat[B], NAME)
      else if NAME in flat[E] then Get(flat[E], NAME)
      else Get(flat[A], NAME)
    case _ => None
  }

  lemma TakenIsFirstMatch(flat: map<Class, Table<int>>, c: Class)
    requires flat.Keys == CLASSES
    ensures c == A || c == M || c == B || c == D ==> FirstMatch(Parents(c, true), flat, NAME) == Taken(flat, c)
  {
    if c == D {
      OfThree(B, E, A, flat);
    } else if c == A || c == M || c == B {
      OfOne(Parents(c, true)[0], flat);
    }
  }

  lemma OfOne(x: Class, flat: map<Class, Table<int>>)
    requires x in flat
    ensures FirstMatch([x], flat, NAME) == Get(flat[x], NAME)
  {
    assert [x][1..] == [];
  }

  lemma OfThree(x: Class, y: Class, z: Class, flat: map<Class, Table<int>>)
    requires x in flat && y in flat && z in flat
    ensures FirstMatch([x, y, z], flat, NAME) ==
            if NAME in flat[x] then Get(flat[x], NAME)
            else if NAME in flat[y] then Get(flat[y], NAME)
            else Get(flat[z], NAME)
  {
    assert [x, y, z][1..] == [y, z] && [y, z][1..] == [z];
    OfOne(z, flat);
  }

  lemma LinksAreClosed(c: Class)
    requires c in CLASSES
    ensures Supers(true).Keys == Members().Keys == CLASSES
    ensures forall s :: s in Supers(true)[c] ==> s in CLASSES
  {
  }

  lemma Visited(flat: map<Class, Table<int>>, c: Class)
    requires flat.Keys == CLASSES && NAME !in Own(c)
    ensures Visit(Supers(true), Members(), flat, c).Keys == CLASSES
    ensures Get(Visit(Supers(true), Members(), flat, c)[c], NAME) == Taken(flat, c)
    ensures forall x :: x in CLASSES && x != c ==> Visit(Supers(true), Members(), flat, c)[x] == flat[x]
  {
    assert c.A? || c.M? || c.B? || c.D?;
    LinksAreClosed(c);
    OthersStay(Supers(true), Members(), flat, c);
    VisitRebuilds(Supers(true), Members(), flat, c, NAME);
    TakenIsFirstMatch(flat, c);
  }

  lemma StaleIsWrong(flat: map<Class, Table<int>>)
    requires flat.Keys == CLASSES && Get(flat[D], NAME) == Some(2) && Get(flat[B], NAME) == Some(1)
    ensures Ranked(Supers(true), Rank()) && !Coherent(Supers(true), Rank(), Members(), flat)
  {
    Linkage(true);
    CoherentIffLinked(Supers(true), Rank(), Members(), flat, NAME);
    assert !Linked(Supers(true), Members(), flat, D, NAME);
    assert !CoherentAt(Supers(true), Rank(), Members(), flat, NAME);
  }

  ghost predicate IsVisit(flat: map<Class, Table<int>>, c: Class, flat': map<Class, Table<int>>) {
    flat' == Visit(Supers(true), Members(), flat, c)
  }

  /** One class takes what it takes, and the others stay. */
  predicate Takes(flat: map<Class, Table<int>>, c: Class, flat': map<Class, Table<int>>) {
    && flat.Keys == flat'.Keys == CLASSES && c in CLASSES && Get(flat'[c], NAME) == Taken(flat, c)
    && forall x :: x in CLASSES && x != c ==> flat'[x] == flat[x]
  }

  lemma TakesGoStale(f1: map<Class, Table<int>>, second: Class, f2: map<Class, Table<int>>, third: Class,
                     f3: map<Class, Table<int>>, f4: map<Class, Table<int>>)
    requires (second == M && third == D) || (second == D && third == M)
    requires Takes(Before(), A, f1) && Takes(f1, second, f2) && Takes(f2, third, f3) && Takes(f3, B, f4)
    ensures Get(f4[D], NAME) == Some(2) && Get(f4[B], NAME) == Some(1)
  {
    assert Get(f1[A], NAME) == Some(1) && NAME !in f1[B] && Get(f1[E], NAME) == Some(2);
    assert Get(f3[M], NAME) == Some(1) && Get(f3[D], NAME) == Some(2);
  }

  lemma VisitsGoStale(f1: map<Class, Table<int>>, second: Class, f2: map<Class, Table<int>>, third: Class,
                      f3: map<Class, Table<int>>, f4: map<Class, Table<int>>)
    requires (second == M && third == D) || (second == D && third == M)
    requires IsVisit(Before(), A, f1) && IsVisit(f1, second, f2) && IsVisit(f2, third, f3) && IsVisit(f3, B, f4)
    ensures f4.Keys == CLASSES && Get(f4[D], NAME) == Some(2) && Get(f4[B], NAME) == Some(1)
  {
    Visited(Before(), A);
    Visited(f1, second);
    Visited(f2, third);
    Visited(f3, B);
    TakesGoStale(f1, second, f2, third, f3, f4);
  }

  lemma OrdersGoStale(order: seq<Class>)
    requires order == [A, M, D, B] || order == [A, D, M, B]
    ensures var flat := Swept(Supers(true), Members(), Before(), order, 4);
            flat.Keys == CLASSES && Get(flat[D], NAME) == Some(2) && Get(flat[B], NAME) == Some(1)
  {
    var f1 := Swept(Supers(true), Members(), Before(), order, 1);
    var f2 := Swept(Supers(true), Members(), Before(), order, 2);
    var f3 := Swept(Supers(true), Members(), Before(), order, 3);
    assert IsVisit(Swept(Supers(true), Members(), Before(), order, 0), A, f1);
    VisitsGoStale(f1, order[1], f2, order[2], f3, Swept(Supers(true), Members(), Before(), order, 4));
  }

  /** Whatever walk from A is taken once it has its new superclass, it leaves D with the wrong member. */
  lemma WalkGoesStale(qs: seq<seq<Class>>)
    requires Finished(Subs(true), A, qs)
    ensures Ranked(Supers(true), Rank()) && Inverse(Supers(true), Subs(true))
    ensures var flat := Swept(Supers(true), Members(), Before(), Order(qs), |Order(qs)|);
            flat.Keys == Supers(true).Keys && !Coherent(Supers(true), Rank(), Members(), flat)
  {
    SubLinkage(true);
    DComesFirst(qs);
    OrdersGoStale(Order(qs));
    StaleIsWrong(Swept(Supers(true), Members(), Before(), Order(qs), |Order(qs)|));
  }
}
