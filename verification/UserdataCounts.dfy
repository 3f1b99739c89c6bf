/**
  How many userdata stand for an object, whatever other objects there are at its addresses.
 */
module UserdataCounts {
  import opened Wrappers

  import opened UserdataModel
  import opened UserdataCollector
  import opened UserdataAliasing
  import opened UserdataIdentity

  function OwnedBy(c: Cache, o: nat): set<nat> {
    set u | u in c.uds && c.uds[u].obj == o
  }

  /** The push upgrades the userdata it found, which then stands for the object pushed. */
  ghost predicate Upgrades(w: World, c: Cache, e: Event)
    requires w.Ok()
  {
    e.Pushing? && e.found.Some? && e.found.value in c.uds && c.uds[e.found.value].typ in w.bases
    && !Narrower(w, c.uds[e.found.value].typ, e.t)
  }

  /** A push gives its object a userdata more if it finds none, or upgrades one of another object. */
  ghost function Gain(w: World, c: Cache, e: Event, o: nat): nat
    requires w.Ok()
  {
    if e.Pushing? && e.o == o && (e.found == None || (Upgrades(w, c, e) && c.uds[e.found.value].obj != o)) then 1 else 0
  }

  /** An object loses one that is upgraded for another object, or cleared. */
  ghost function Loss(w: World, c: Cache, e: Event, o: nat): nat
    requires w.Ok()
  {
    if e.Pushing? && e.o != o && Upgrades(w, c, e) && c.uds[e.found.value].obj == o then 1
    else if e.Clearing? && e.ud in c.uds && c.uds[e.ud].obj == o then 1
    else 0
  }

  /** The userdata of the object other than `u`. */
  function Others(c: Cache, u: nat, o: nat): set<nat> {
    set v | v in c.uds && v != u && c.uds[v].obj == o
  }

  lemma CountedApart(c: Cache, u: nat, o: nat)
    ensures |OwnedBy(c, o)| == |Others(c, u, o)| + if u in c.uds && c.uds[u].obj == o then 1 else 0
  {
    if u in c.uds && c.uds[u].obj == o {
      assert OwnedBy(c, o) == Others(c, u, o) + {u};
    } else {
      assert OwnedBy(c, o) == Others(c, u, o);
    }
  }

  /** One userdata joins the others, or comes to stand for another object. */
  lemma MovedCounts(c: Cache, c': Cache, u: nat, o: nat)
    requires c'.uds.Keys - {u} == c.uds.Keys - {u}
    requires forall v :: v in c.uds && v != u ==> v in c'.uds && c'.uds[v].obj == c.uds[v].obj
    ensures |OwnedBy(c', o)| + (if u in c.uds && c.uds[u].obj == o then 1 else 0)
         == |OwnedBy(c, o)| + if u in c'.uds && c'.uds[u].obj == o then 1 else 0
  {
    CountedApart(c, u, o);
    CountedApart(c', u, o);
    forall v ensures v in Others(c', u, o) <==> v in Others(c, u, o) {
      assert v in c'.uds.Keys - {u} <==> v in c.uds.Keys - {u};
    }
    assert Others(c', u, o) == Others(c, u, o);
  }

  lemma AddCounts(w: World, c: Cache, e: Event, o: nat)
    requires w.Ok() && Sane(w, c) && e.Pushing? && Possible(w, c, e) && e.found == None
    ensures |OwnedBy(After(w, c, e), o)| == |OwnedBy(c, o)| + Gain(w, c, e, o) && Loss(w, c, e, o) == 0
  {
    NewUdIsOwn(w, c, e.o, e.t, e.isConst, e.owner == OwnedByLua);
    MovedCounts(c, After(w, c, e), c.next, o);
  }

  lemma AdjustCounts(w: World, c: Cache, e: Event, o: nat)
    requires w.Ok() && e.Pushing? && Possible(w, c, e) && e.found.Some?
    ensures |OwnedBy(After(w, c, e), o)| + Loss(w, c, e, o) == |OwnedBy(c, o)| + Gain(w, c, e, o)
  {
    FoundFits(w, c, e.o, e.t, e.found);
    AdjustSetsObject(w, c, e.found.value, e.o, e.t, e.isConst);
    MovedCounts(c, After(w, c, e), e.found.value, o);
  }

  lemma EventCounts(w: World, c: Cache, e: Event, o: nat)
    requires w.Ok() && Sane(w, c) && Possible(w, c, e)
    ensures |OwnedBy(After(w, c, e), o)| + Loss(w, c, e, o) == |OwnedBy(c, o)| + Gain(w, c, e, o)
  {
    match e
    case Pushing(_, _, _, _, found) =>
      if found == None {
        AddCounts(w, c, e, o);
      } else {
        AdjustCounts(w, c, e, o);
      }
    case Owning(u, owner) => assert OwnedBy(SetOwner(c, u, owner), o) == OwnedBy(c, o);
    case Clearing(u) => MovedCounts(c, Clear(c, u), u, o);
    case Finalizing(u) =>
      FinalizeTakesNone(w, c, u);
      assert OwnedBy(Finalize(w, c, u), o) == OwnedBy(c, o);
  }

  ghost function Gains(w: World, es: seq<Event>, cs: seq<Cache>, o: nat, n: nat): nat
    requires w.Ok() && n <= |es| <= |cs|
  {
    if n == 0 then 0 else Gains(w, es, cs, o, n - 1) + Gain(w, cs[n - 1], es[n - 1], o)
  }

  ghost function Losses(w: World, es: seq<Event>, cs: seq<Cache>, o: nat, n: nat): nat
    requires w.Ok() && n <= |es| <= |cs|
  {
    if n == 0 then 0 else Losses(w, es, cs, o, n - 1) + Loss(w, cs[n - 1], es[n - 1], o)
  }

  /** At every point of every run, the userdata of an object are those it has gained and not lost. */
  lemma {:induction false} RunCounts(w: World, es: seq<Event>, cs: seq<Cache>, o: nat, n: nat)
    requires w.Ok() && IsRun(w, es, cs) && n <= |es|
    ensures |OwnedBy(cs[n], o)| + Losses(w, es, cs, o, n) == Gains(w, es, cs, o, n)
  {
    if n == 0 {
      assert OwnedBy(EMPTY, o) == {};
    } else {
      RunCounts(w, es, cs, o, n - 1);
      FlagsInEveryRun(w, es, cs, n - 1);
      assert Possible(w, cs[n - 1], es[n - 1]) && cs[n] == After(w, cs[n - 1], es[n - 1]);
      EventCounts(w, cs[n - 1], es[n - 1], o);
    }
  }
}
