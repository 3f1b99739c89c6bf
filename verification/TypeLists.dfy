/**
  The class hierarchy as the proxies declare it: for each class the list of its direct bases, and the lists that are
  computed from it at compile time.  `rank` falls from a class to its bases, so that the recursion ends.
*/
module TypeLists {
  import opened ClassGraph

  /** The flattened list of bases: the direct ones, followed by the flattened list of each. */
  function AllBases<T(==)>(bases: map<T, seq<T>>, ghost rank: map<T, nat>, t: T): seq<T>
    requires Ranked(bases, rank) && t in bases
    decreases rank[t], 1, 0
  {
    bases[t] + BasesOfEach(bases, rank, bases[t], rank[t])
  }

  function BasesOfEach<T(==)>(bases: map<T, seq<T>>, ghost rank: map<T, nat>, list: seq<T>, ghost bound: nat): seq<T>
    requires Ranked(bases, rank)
    requires forall b :: b in list ==> b in bases && rank[b] < bound
    decreases bound, 0, |list|
  {
    if list == [] then [] else AllBases(bases, rank, list[0]) + BasesOfEach(bases, rank, list[1..], bound)
  }

  /** The classes of the flattened list that have no bases themselves. */
  function RootBases<T(==)>(bases: map<T, seq<T>>, ghost rank: map<T, nat>, t: T): seq<T>
    requires Ranked(bases, rank) && t in bases
  {
    Rootless(bases, AllBases(bases, rank, t))
  }

  function Rootless<T(==)>(bases: map<T, seq<T>>, list: seq<T>): (r: seq<T>)
  {
    if list == [] then []
    else if list[0] in bases && bases[list[0]] == [] then [list[0]] + Rootless(bases, list[1..])
    else Rootless(bases, list[1..])
  }

  /** `b` is a proper base of `t`. */
  ghost predicate IsBase<T>(bases: map<T, seq<T>>, rank: map<T, nat>, b: T, t: T)
    requires Ranked(bases, rank) && t in bases
  {
    b != t && SubclassOf(bases, rank, t, b)
  }

  lemma {:induction false} BasesOfEachHas<T>(bases: map<T, seq<T>>, rank: map<T, nat>, list: seq<T>, bound: nat, x: T)
    requires Ranked(bases, rank)
    requires forall b :: b in list ==> b in bases && rank[b] < bound
    ensures x in BasesOfEach(bases, rank, list, bound) <==>
            exists b :: b in list && b in bases && x in AllBases(bases, rank, b)
  {
    if list != [] {
      BasesOfEachHas(bases, rank, list[1..], bound, x);
      if x in AllBases(bases, rank, list[0]) {
        assert list[0] in list;
      }
      if b :| b in list && b in bases && x in AllBases(bases, rank, b) {
        assert b == list[0] || b in list[1..];
      }
    }
  }

  /** The flattened list holds exactly the proper bases. */
  lemma {:induction false} AllBasesIsProperBases<T>(bases: map<T, seq<T>>, rank: map<T, nat>, t: T, x: T)
    requires Ranked(bases, rank) && t in bases
    ensures x in AllBases(bases, rank, t) <==> IsBase(bases, rank, x, t)
    ensures x in AllBases(bases, rank, t) ==> x in bases && rank[x] < rank[t]
    decreases rank[t]
  {
    forall b | b in bases[t]
      ensures x in AllBases(bases, rank, b) <==> IsBase(bases, rank, x, b)
      ensures x in AllBases(bases, rank, b) ==> x in bases && rank[x] < rank[b]
    {
      AllBasesIsProperBases(bases, rank, b, x);
    }
    BasesOfEachHas(bases, rank, bases[t], rank[t], x);
    AnySubclassOfIff(bases, rank, bases[t], rank[t], x);
    if x in AllBases(bases, rank, t) {
      if x in bases[t] {
        assert SubclassOf(bases, rank, x, x);
      } else {
        var b :| b in bases[t] && x in AllBases(bases, rank, b);
      }
    }
  }

  lemma {:induction false} SubclassTrans<T>(bases: map<T, seq<T>>, rank: map<T, nat>, a: T, b: T, c: T)
    requires Ranked(bases, rank) && a in bases && b in bases
    requires SubclassOf(bases, rank, a, b) && SubclassOf(bases, rank, b, c)
    ensures SubclassOf(bases, rank, a, c)
    decreases rank[a]
  {
    if a != b {
      AnySubclassOfIff(bases, rank, bases[a], rank[a], b);
      var s :| s in bases[a] && SubclassOf(bases, rank, s, b);
      SubclassTrans(bases, rank, s, b, c);
      AnySubclassOfIff(bases, rank, bases[a], rank[a], c);
    }
  }

  /** The bases of a base are bases. */
  lemma AllBasesTrans<T>(bases: map<T, seq<T>>, rank: map<T, nat>, t: T, u: T, x: T)
    requires Ranked(bases, rank) && t in bases && u in AllBases(bases, rank, t)
    requires u in bases && x in AllBases(bases, rank, u)
    ensures x in AllBases(bases, rank, t)
  {
    AllBasesIsProperBases(bases, rank, t, u);
    AllBasesIsProperBases(bases, rank, u, x);
    SubclassTrans(bases, rank, t, u, x);
    AllBasesIsProperBases(bases, rank, t, x);
  }

  lemma {:induction false} RootlessHas<T>(bases: map<T, seq<T>>, list: seq<T>, x: T)
    ensures x in Rootless(bases, list) <==> x in list && x in bases && bases[x] == []
  {
    if list != [] {
      RootlessHas(bases, list[1..], x);
    }
  }

  /** Every class that is not a root has a root among its bases. */
  lemma {:induction false} HasRoot<T>(bases: map<T, seq<T>>, rank: map<T, nat>, t: T) returns (root: T)
    requires Ranked(bases, rank) && t in bases && bases[t] != []
    ensures root in RootBases(bases, rank, t) && root in AllBases(bases, rank, t) && root in bases && bases[root] == []
    decreases rank[t]
  {
    var b := bases[t][0];
    assert b in bases[t];
    if bases[b] == [] {
      root := b;
    } else {
      root := HasRoot(bases, rank, b);
      AllBasesTrans(bases, rank, t, b, root);
    }
    RootlessHas(bases, AllBases(bases, rank, t), root);
  }

  /** The roots of a base are roots of the class: nothing below them need be searched. */
  lemma RootsInherited<T>(bases: map<T, seq<T>>, rank: map<T, nat>, t: T, u: T, root: T)
    requires Ranked(bases, rank) && t in bases && u in AllBases(bases, rank, t)
    requires u in bases && root in bases && bases[root] == [] && (root == u || root in AllBases(bases, rank, u))
    ensures root in RootBases(bases, rank, t)
  {
    if root != u {
      AllBasesTrans(bases, rank, t, u, root);
    }
    RootlessHas(bases, AllBases(bases, rank, t), root);
  }
}
