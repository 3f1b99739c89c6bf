/**
  Sequences of `class` calls, on the links alone: each call defines a class or redefines one under other superclasses.
*/
module ClassCalls {
  import opened ClassGraph
  import opened Relinking

  datatype Links<C> = Links(supers: map<C, seq<C>>, subs: map<C, set<C>>)

  datatype Call<C> = Call(self: C, parents: seq<C>)

  /** A class not seen before starts without links. */
  function Introduced<C(==)>(l: Links<C>, c: C): Links<C> {
    if c in l.supers then l else Links(l.supers[c := []], l.subs[c := {}])
  }

  /** The class leaves its old superclasses and enters the new ones. */
  function After<C(==)>(was: Links<C>, call: Call<C>): Links<C> {
    var l, c := Introduced(was, call.self), call.self;
    Links(l.supers[c := call.parents],
          map x | x in l.subs ::
            l.subs[x] - (if c in l.supers && x in l.supers[c] then {c} else {})
              + (if x in call.parents then {c} else {}))
  }

  /** Acyclic, with subclass links that are exactly the superclass links turned round. */
  ghost predicate Sound<C(!new)>(l: Links<C>) {
    Inverse(l.supers, l.subs) && exists rank :: Ranked(l.supers, rank)
  }

  ghost predicate Reaches<C(!new)>(supers: map<C, seq<C>>, c: C, super: C) {
    exists path: seq<C> :: IsPath(supers, path) && path[0] == c && path[|path| - 1] == super
  }

  /** No new superclass is the class itself or below it. */
  ghost predicate Admissible<C(!new)>(l: Links<C>, call: Call<C>) {
    forall s :: s in call.parents ==> s != call.self && !Reaches(l.supers, s, call.self)
  }

  lemma IntroducedIsSound<C(!new)>(l: Links<C>, c: C)
    requires Sound(l)
    ensures Sound(Introduced(l, c))
  {
    if c !in l.supers {
      var rank :| Ranked(l.supers, rank);
      var l' := Introduced(l, c);
      NewClassJoins(l.supers, l.subs, rank, c, l'.supers, l'.subs, rank[c := 0]);
    }
  }

  lemma LinksStayInverse<C(!new)>(l: Links<C>, call: Call<C>)
    requires Sound(l) && call.self in l.supers && forall s :: s in call.parents ==> s in l.supers
    ensures Inverse(After(l, call).supers, After(l, call).subs)
  {
    RelinkedInverse(l.supers, l.subs, call.self, call.parents, After(l, call).subs);
  }

  /** New classes are reached from nowhere. */
  lemma IntroducedReaches<C(!new)>(l: Links<C>, c: C, s: C)
    requires Sound(l) && s in l.supers
    ensures Sound(Introduced(l, c))
    ensures Reaches(Introduced(l, c).supers, s, c) <==> Reaches(l.supers, s, c)
  {
    IntroducedIsSound(l, c);
    if c !in l.supers {
      var rank :| Ranked(l.supers, rank);
      var l' := Introduced(l, c);
      NewClassJoins(l.supers, l.subs, rank, c, l'.supers, l'.subs, rank[c := 0]);
      SubclassOfDecidesReachability(l'.supers, rank[c := 0], s, c);
    }
  }

  /** A call keeps the links sound exactly when it is admissible. */
  lemma CallKeepsSoundIff<C(!new)>(l: Links<C>, call: Call<C>)
    requires Sound(l) && forall s :: s in call.parents ==> s in l.supers
    ensures Sound(After(l, call)) <==> Admissible(l, call)
  {
    var l0 := Introduced(l, call.self);
    IntroducedIsSound(l, call.self);
    assert After(l0, call) == After(l, call);
    LinksStayInverse(l0, call);
    var rank :| Ranked(l0.supers, rank);
    RedefinitionAcyclicIff(l0.supers, rank, call.self, call.parents, After(l, call).supers);
    forall s | s in call.parents
      ensures SubclassOf(l0.supers, rank, s, call.self) <==> s == call.self || Reaches(l.supers, s, call.self)
    {
      IntroducedReaches(l, call.self, s);
      SubclassOfDecidesReachability(l0.supers, rank, s, call.self);
    }
  }

  ghost function AfterCalls<C>(l: Links<C>, calls: seq<Call<C>>): Links<C>
    decreases |calls|
  {
    if calls == [] then l else AfterCalls(After(l, calls[0]), calls[1..])
  }

  /** Superclasses are classes defined before. */
  ghost predicate Known<C>(l: Links<C>, calls: seq<Call<C>>)
    decreases |calls|
  {
    calls == []
    || ((forall s :: s in calls[0].parents ==> s in l.supers) && Known(After(l, calls[0]), calls[1..]))
  }

  ghost predicate AllAdmissible<C(!new)>(l: Links<C>, calls: seq<Call<C>>)
    decreases |calls|
  {
    calls == [] || (Admissible(l, calls[0]) && AllAdmissible(After(l, calls[0]), calls[1..]))
  }

  /** The links are sound before the first call and after each. */
  ghost predicate AllSound<C(!new)>(l: Links<C>, calls: seq<Call<C>>)
    decreases |calls|
  {
    Sound(l) && (calls == [] || AllSound(After(l, calls[0]), calls[1..]))
  }

  /** Over a sequence of calls the links are sound all along exactly when every call is admissible. */
  lemma {:induction false} CallsKeepSoundIff<C(!new)>(l: Links<C>, calls: seq<Call<C>>)
    requires Sound(l) && Known(l, calls)
    ensures AllSound(l, calls) <==> AllAdmissible(l, calls)
    ensures AllAdmissible(l, calls) ==> Sound(AfterCalls(l, calls))
    decreases |calls|
  {
    if calls != [] {
      CallKeepsSoundIff(l, calls[0]);
      if Sound(After(l, calls[0])) {
        CallsKeepSoundIff(After(l, calls[0]), calls[1..]);
      }
    }
  }
}
