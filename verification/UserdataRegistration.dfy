/**
  Where userdata are registered in every run, and so when a push does not find the one there is.
 */
module UserdataRegistration {
  import opened Wrappers

  import opened TypeLists
  import opened UserdataModel
  import opened UserdataCollector

  // ---- what every event keeps ----

  /** Adding takes no userdata off the addresses it must be registered at. */
  lemma AddEachKeepsRegistered(w: World, c: Cache, o: nat, list: seq<nat>, u: nat, v: nat)
    requires w.Ok() && v in c.uds && RegisteredUd(w, c, v)
    ensures v in AddEach(w, c, o, list, u).uds && RegisteredUd(w, AddEach(w, c, o, list, u), v)
  {
    var c' := AddEach(w, c, o, list, u);
    AddEachFlags(w, c, o, list, u);
    forall p ensures Holds(c, p) <= Holds(c', p) {
      AddEachInserts(w, c, o, list, u, p);
    }
  }

  /** The userdata that is registered at its bases, and the others. */
  lemma BasesRegistered(w: World, c: Cache, o: nat, t: nat, u: nat)
    requires w.Ok() && t in w.bases && u in c.uds && c.uds[u].obj == o && c.uds[u].typ == t
    requires w.bases[t] == [] ==> u in Holds(c, w.at(o, t))
    requires forall v :: v in c.uds && v != u ==> RegisteredUd(w, c, v)
    ensures Registered(w, AddEach(w, c, o, w.All(t), u))
  {
    var c' := AddEach(w, c, o, w.All(t), u);
    AddEachFlags(w, c, o, w.All(t), u);
    forall v | v in c'.uds ensures RegisteredUd(w, c', v) {
      if v == u {
        OwnBasesRegistered(w, c, o, t, u);
      } else {
        AddEachKeepsRegistered(w, c, o, w.All(t), u, v);
      }
    }
  }

  lemma OwnBasesRegistered(w: World, c: Cache, o: nat, t: nat, u: nat)
    requires w.Ok() && t in w.bases && u in c.uds && c.uds[u].obj == o && c.uds[u].typ == t
    requires w.bases[t] == [] ==> u in Holds(c, w.at(o, t))
    ensures var c' := AddEach(w, c, o, w.All(t), u);
            u in c'.uds && RegisteredUd(w, c', u)
  {
    AddEachFlags(w, c, o, w.All(t), u);
    AddEachInserts(w, c, o, w.All(t), u, w.at(o, t));
    forall b | b in w.All(t) ensures u in Holds(AddEach(w, c, o, w.All(t), u), w.at(o, b)) {
      AddEachInserts(w, c, o, w.All(t), u, w.at(o, b));
    }
  }

  lemma AddPtrRegisters(w: World, c: Cache, o: nat, t: nat, isConst: bool, gc: bool)
    requires w.Ok() && Registered(w, c) && t in w.bases
    ensures Registered(w, AddPtr(w, c, o, t, isConst, gc))
  {
    var u, p := c.next, w.at(o, t);
    var c1 := c.(uds := c.uds[u := Ud(o, t, isConst, gc, false)], next := c.next + 1);
    forall v | v in c1.uds && v != u
      ensures v in AddIfRequired(c1, p, u).uds && RegisteredUd(w, AddIfRequired(c1, p, u), v)
    {
      assert RegisteredUd(w, c, v);
      AddKeepsRegistered(w, c1, p, u, v);
    }
    AddInsertsOne(c1, p, u, p);
    BasesRegistered(w, AddIfRequired(c1, p, u), o, t, u);
  }

  lemma ResetRegisters(w: World, c: Cache, u: nat, o: nat, t: nat, isConst: bool)
    requires w.Ok() && Registered(w, c) && t in w.bases && u in c.uds && Wider(w, c.uds[u].typ, t)
    ensures Registered(w, Reset(w, c, u, o, t, isConst))
  {
    var c1 := c.(uds := c.uds[u := c.uds[u].(obj := o, typ := t, isConst := isConst)]);
    assert RegisteredUd(w, c, u);
    CoverGrows(w, o, c.uds[u].typ, t);
    forall v | v in c1.uds && v != u ensures RegisteredUd(w, c1, v) {
      assert RegisteredUd(w, c, v);
    }
    BasesRegistered(w, c1, o, t, u);
  }

  lemma FlagsKeepRegistered(w: World, c: Cache, u: nat, isConst: bool, gc: bool)
    requires w.Ok() && Registered(w, c) && u in c.uds
    ensures Registered(w, c.(uds := c.uds[u := c.uds[u].(isConst := isConst, gc := gc)]))
  {
    var c1 := c.(uds := c.uds[u := c.uds[u].(isConst := isConst, gc := gc)]);
    forall v | v in c1.uds ensures RegisteredUd(w, c1, v) {
      assert RegisteredUd(w, c, v);
    }
  }

  lemma OwnerKeepsRegistered(w: World, c: Cache, u: nat, owner: Owner)
    requires w.Ok() && Registered(w, c)
    ensures Registered(w, SetOwner(c, u, owner))
  {
    if owner != NoChange && u in c.uds {
      FlagsKeepRegistered(w, c, u, c.uds[u].isConst, owner == OwnedByLua);
    }
  }

  lemma PushKeepsRegistered(w: World, c: Cache, o: nat, t: nat, isConst: bool, owner: Owner, r: Option<nat>)
    requires w.Ok() && Registered(w, c) && t in w.bases && Found(w, c, o, t, r)
    ensures Registered(w, Push(w, c, o, t, isConst, owner, r))
  {
    FoundFits(w, c, o, t, r);
    if r == None {
      AddPtrRegisters(w, c, o, t, isConst, owner == OwnedByLua);
    } else {
      var u := r.value;
      var isConst' := c.uds[u].isConst && isConst;
      if Narrower(w, c.uds[u].typ, t) {
        FlagsKeepRegistered(w, c, u, isConst', c.uds[u].gc);
      } else {
        ResetRegisters(w, c, u, o, t, isConst');
      }
      OwnerKeepsRegistered(w, Adjust(w, c, u, o, t, isConst), u, owner);
    }
  }

  lemma ClearKeepsRegistered(w: World, c: Cache, u: nat)
    requires w.Ok() && Registered(w, c) && u in c.uds
    ensures Registered(w, Clear(c, u))
  {
    var c' := Clear(c, u);
    forall v | v in c'.uds ensures RegisteredUd(w, c', v) {
      assert RegisteredUd(w, c, v);
      forall p ensures v in Holds(c, p) ==> v in Holds(c', p) { ClearRemoves(c, u, p); }
    }
  }

  lemma FinalizeKeepsRegistered(w: World, c: Cache, u: nat)
    requires w.Ok() && Registered(w, c) && u in c.pending && c.pending[u].typ in w.bases
    ensures Registered(w, Finalize(w, c, u))
  {
    var c' := Finalize(w, c, u);
    if c.pending[u].collision {
      CleanSlotsEffect(c.(pending := c.pending - {u}), CleanedBy(w, c.pending[u]));
    }
    forall v | v in c'.uds ensures RegisteredUd(w, c', v) {
      assert RegisteredUd(w, c, v);
      assert forall p :: v in Holds(c, p) ==> v in Holds(c', p);
    }
  }

  /** In every run, at every point, contained or not: each userdata is registered at all its bases. */
  lemma {:induction false} RegisteredInEveryRun(w: World, es: seq<Event>, cs: seq<Cache>, n: nat)
    requires w.Ok() && IsRun(w, es, cs) && n <= |es|
    ensures Registered(w, cs[n])
  {
    if n > 0 {
      RegisteredInEveryRun(w, es, cs, n - 1);
      var c := cs[n - 1];
      assert Possible(w, c, es[n - 1]) && cs[n] == After(w, c, es[n - 1]);
      match es[n - 1]
      case Pushing(o, t, isConst, owner, found) => PushKeepsRegistered(w, c, o, t, isConst, owner, found);
      case Owning(u, owner) => OwnerKeepsRegistered(w, c, u, owner);
      case Clearing(u) => ClearKeepsRegistered(w, c, u);
      case Finalizing(u) => FinalizeKeepsRegistered(w, c, u);
    }
  }

  // ---- when the userdata there is is not found ----

  /** The object has no related userdata where the push looks first, its own or another's. */
  ghost predicate NoneAtAddress(w: World, c: Cache, o: nat, t: nat)
    requires w.Ok() && t in w.bases
  {
    forall v :: v in Holds(c, w.at(o, t)) ==> !Fits(w, c, v, t)
  }

  ghost predicate NoneAtRoots(w: World, c: Cache, o: nat, t: nat)
    requires w.Ok() && t in w.bases
  {
    forall b :: b in w.Roots(t) && w.at(o, b) != w.at(o, t) ==> WiderAt(w, c, w.at(o, b), t) == {}
  }

  lemma {:induction false} NoneAtRootsIsFound(w: World, c: Cache, o: nat, t: nat, roots: seq<nat>)
    requires w.Ok() && t in w.bases
    requires forall b :: b in roots && w.at(o, b) != w.at(o, t) ==> WiderAt(w, c, w.at(o, b), t) == {}
    ensures FoundAtRoots(w, c, o, t, roots, None)
    decreases |roots|
  {
    if roots != [] {
      assert roots[0] in roots;
      NoneAtRootsIsFound(w, c, o, t, roots[1..]);
    }
  }

  /**
    The object has a userdata of a related class, and yet the push adds another, exactly when none that fits is
    registered at the pushed address and either a collision table is there, from which the search does not go on, or the
    userdata is of the pushed class itself and none of a base is found at the roots.
   */
  lemma AddsAnotherIff(w: World, c: Cache, o: nat, t: nat, u: nat)
    requires w.Ok() && Registered(w, c) && t in w.bases
    requires u in c.uds && c.uds[u].obj == o && Fits(w, c, u, t)
    ensures Found(w, c, o, t, None) <==>
            && NoneAtAddress(w, c, o, t)
            && ((w.at(o, t) in c.slots && c.slots[w.at(o, t)].Table?)
                || (c.uds[u].typ == t && NoneAtRoots(w, c, o, t)))
  {
    if Found(w, c, o, t, None) {
      if FoundAtRoots(w, c, o, t, w.Roots(t), None) {
        RootsFindWider(w, c, o, t, w.Roots(t), None);
      }
      if c.uds[u].typ != t && (w.at(o, t) in c.slots ==> c.slots[w.at(o, t)].Single?) {
        FindIsComplete(w, c, o, t, None, u);
      }
    } else if NoneAtAddress(w, c, o, t) && NoneAtRoots(w, c, o, t) {
      NoneAtRootsIsFound(w, c, o, t, w.Roots(t));
    }
  }

  /** The same at every point of every run. */
  lemma AddsAnotherInRunsIff(w: World, es: seq<Event>, cs: seq<Cache>, n: nat, o: nat, t: nat, u: nat)
    requires w.Ok() && IsRun(w, es, cs) && n <= |es| && t in w.bases
    requires u in cs[n].uds && cs[n].uds[u].obj == o && Fits(w, cs[n], u, t)
    ensures Found(w, cs[n], o, t, None) <==>
            && NoneAtAddress(w, cs[n], o, t)
            && ((w.at(o, t) in cs[n].slots && cs[n].slots[w.at(o, t)].Table?)
                || (cs[n].uds[u].typ == t && NoneAtRoots(w, cs[n], o, t)))
  {
    RegisteredInEveryRun(w, es, cs, n);
    AddsAnotherIff(w, cs[n], o, t, u);
  }

  /** Searching the roots only is complete at every point of every run. */
  lemma FindIsCompleteInRuns(w: World, es: seq<Event>, cs: seq<Cache>, n: nat, o: nat, t: nat, r: Option<nat>, u: nat)
    requires w.Ok() && IsRun(w, es, cs) && n <= |es| && t in w.bases && Found(w, cs[n], o, t, r)
    requires u in cs[n].uds && cs[n].uds[u].obj == o && cs[n].uds[u].typ != t && Fits(w, cs[n], u, t)
    requires w.at(o, t) in cs[n].slots ==> cs[n].slots[w.at(o, t)].Single?
    ensures r.Some? && Fits(w, cs[n], r.value, t)
  {
    RegisteredInEveryRun(w, es, cs, n);
    FindIsComplete(w, cs[n], o, t, r, u);
  }
}
