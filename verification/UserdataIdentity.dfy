/**
  Whose userdata a push hands out: the search compares classes and addresses but not objects, so it can be that of an
  object at the same address whose class is related.
 */
module UserdataIdentity {
  import opened Wrappers

  import opened TypeLists
  import opened UserdataModel
  import opened UserdataCollector
  import opened UserdataAliasing

  /** What a push found is a userdata of the object pushed. */
  ghost predicate Own(c: Cache, o: nat, r: Option<nat>) {
    r.Some? ==> r.value in c.uds && c.uds[r.value].obj == o
  }

  /** The userdata of classes that the pushed one is derived from, at an address of the object. */
  ghost predicate OwnWiderAt(w: World, c: Cache, o: nat, t: nat, b: nat)
    requires w.Ok() && t in w.bases
  {
    forall u :: u in WiderAt(w, c, w.at(o, b), t) ==> c.uds[u].obj == o
  }

  /** The search reaches the `i`-th root and finds something there. */
  ghost predicate Decides(w: World, c: Cache, o: nat, t: nat, roots: seq<nat>, i: nat)
    requires w.Ok() && t in w.bases && i < |roots|
  {
    && Fitting(w, c, o, t, roots[i])
    && forall j :: 0 <= j < i ==> !Fitting(w, c, o, t, roots[j])
  }

  /** The root lies elsewhere and has a userdata there that the search takes. */
  ghost predicate Fitting(w: World, c: Cache, o: nat, t: nat, b: nat)
    requires w.Ok() && t in w.bases
  {
    w.at(o, b) != w.at(o, t) && WiderAt(w, c, w.at(o, b), t) != {}
  }

  ghost predicate OwnAtRoots(w: World, c: Cache, o: nat, t: nat, roots: seq<nat>)
    requires w.Ok() && t in w.bases
  {
    forall i :: 0 <= i < |roots| && Decides(w, c, o, t, roots, i) ==> OwnWiderAt(w, c, o, t, roots[i])
  }

  /** The search does not go on to the roots. */
  ghost predicate EndsAtAddress(w: World, c: Cache, o: nat, t: nat)
    requires w.Ok() && t in w.bases
  {
    var p := w.at(o, t);
    p in c.slots && (c.slots[p].Table? || Fits(w, c, c.slots[p].ud, t))
  }

  /**
    Related userdata at the pushed address are the object's own; and where the search goes on to the roots, so are those
    at the first root that has any.
   */
  ghost predicate OwnInSight(w: World, c: Cache, o: nat, t: nat)
    requires w.Ok() && t in w.bases
  {
    && (forall u :: u in Holds(c, w.at(o, t)) && Fits(w, c, u, t) ==> c.uds[u].obj == o)
    && (EndsAtAddress(w, c, o, t) || OwnAtRoots(w, c, o, t, w.Roots(t)))
  }

  /** Some root decides, or none has anything to find. */
  lemma {:induction false} RootsFindOwnIff(w: World, c: Cache, o: nat, t: nat, roots: seq<nat>)
    requires w.Ok() && t in w.bases
    ensures (forall r :: FoundAtRoots(w, c, o, t, roots, r) ==> Own(c, o, r)) <==> OwnAtRoots(w, c, o, t, roots)
    decreases |roots|
  {
    if roots != [] {
      if Fitting(w, c, o, t, roots[0]) {
        assert Decides(w, c, o, t, roots, 0);
        FirstDecides(w, c, o, t, roots);
      } else {
        RootsFindOwnIff(w, c, o, t, roots[1..]);
        assert forall r :: FoundAtRoots(w, c, o, t, roots, r) <==> FoundAtRoots(w, c, o, t, roots[1..], r);
        LaterDecides(w, c, o, t, roots);
      }
    }
  }

  lemma FirstDecides(w: World, c: Cache, o: nat, t: nat, roots: seq<nat>)
    requires w.Ok() && t in w.bases && roots != [] && Fitting(w, c, o, t, roots[0])
    ensures (forall r :: FoundAtRoots(w, c, o, t, roots, r) ==> Own(c, o, r)) <==> OwnWiderAt(w, c, o, t, roots[0])
  {
    var us := WiderAt(w, c, w.at(o, roots[0]), t);
    forall u | u in us ensures FoundAtRoots(w, c, o, t, roots, Some(u)) {}
    if forall r :: FoundAtRoots(w, c, o, t, roots, r) ==> Own(c, o, r) {
      forall u | u in us ensures c.uds[u].obj == o {
        assert Own(c, o, Some(u));
      }
    }
  }

  lemma LaterDecides(w: World, c: Cache, o: nat, t: nat, roots: seq<nat>)
    requires w.Ok() && t in w.bases && roots != [] && !Fitting(w, c, o, t, roots[0])
    ensures OwnAtRoots(w, c, o, t, roots) <==> OwnAtRoots(w, c, o, t, roots[1..])
  {
    var rest := roots[1..];
    forall i | 0 <= i < |rest| ensures Decides(w, c, o, t, rest, i) <==> Decides(w, c, o, t, roots, i + 1) {
      assert forall j :: 0 <= j < i ==> rest[j] == roots[j + 1];
    }
    if OwnAtRoots(w, c, o, t, roots) {
      forall i | 0 <= i < |rest| && Decides(w, c, o, t, rest, i) ensures OwnWiderAt(w, c, o, t, rest[i]) {
        assert Decides(w, c, o, t, roots, i + 1);
      }
    }
    if OwnAtRoots(w, c, o, t, rest) {
      forall i | 0 <= i < |roots| && Decides(w, c, o, t, roots, i) ensures OwnWiderAt(w, c, o, t, roots[i]) {
        assert Decides(w, c, o, t, rest, i - 1);
      }
    }
  }

  /** Whatever a push may find is a userdata of the object pushed exactly when those it sees first are. */
  lemma FindsOwnIff(w: World, c: Cache, o: nat, t: nat)
    requires w.Ok() && t in w.bases
    ensures (forall r :: Found(w, c, o, t, r) ==> Own(c, o, r)) <==> OwnInSight(w, c, o, t)
  {
    var p := w.at(o, t);
    RootsFindOwnIff(w, c, o, t, w.Roots(t));
    if EndsAtAddress(w, c, o, t) {
      forall u | u in Holds(c, p) && Fits(w, c, u, t) ensures Found(w, c, o, t, Some(u)) {}
      if forall r :: Found(w, c, o, t, r) ==> Own(c, o, r) {
        forall u | u in Holds(c, p) && Fits(w, c, u, t) ensures c.uds[u].obj == o {
          assert Own(c, o, Some(u));
        }
      }
    } else {
      assert forall r :: Found(w, c, o, t, r) <==> FoundAtRoots(w, c, o, t, w.Roots(t), r);
    }
  }

  /** So a cached base or derived userdata of the object is found, and what is found is the object's own. */
  lemma FindIsCompleteAndOwn(w: World, c: Cache, o: nat, t: nat, u: nat)
    requires w.Ok() && Registered(w, c) && t in w.bases
    requires u in c.uds && c.uds[u].obj == o && c.uds[u].typ != t && Fits(w, c, u, t)
    requires w.at(o, t) in c.slots ==> c.slots[w.at(o, t)].Single?
    ensures (forall r :: Found(w, c, o, t, r) ==> r.Some? && r.value in c.uds && c.uds[r.value].obj == o)
       <==> OwnInSight(w, c, o, t)
  {
    FindsOwnIff(w, c, o, t);
    forall r | Found(w, c, o, t, r) ensures r.Some? {
      FindIsComplete(w, c, o, t, r, u);
    }
    if OwnInSight(w, c, o, t) {
      forall r | Found(w, c, o, t, r) ensures r.value in c.uds && c.uds[r.value].obj == o {
        assert Own(c, o, r);
      }
    } else {
      var r :| Found(w, c, o, t, r) && !Own(c, o, r);
    }
  }

  // ---- whole runs ----

  ghost predicate KeepsObjects(c: Cache, c': Cache) {
    forall u :: u in c.uds && u in c'.uds ==> c'.uds[u].obj == c.uds[u].obj
  }

  /** No userdata comes to stand for another object, and a push hands out one that stands for the object pushed. */
  ghost predicate FaithfulStep(c: Cache, e: Event, c': Cache) {
    && KeepsObjects(c, c')
    && (e.Pushing? ==>
          var u := if e.found.Some? then e.found.value else c.next;
          u in c'.uds && c'.uds[u].obj == e.o)
  }

  lemma PushIsFaithfulIff(w: World, c: Cache, e: Event)
    requires w.Ok() && Sane(w, c) && e.Pushing? && Possible(w, c, e)
    ensures FaithfulStep(c, e, After(w, c, e)) <==> Own(c, e.o, e.found)
  {
    FoundFits(w, c, e.o, e.t, e.found);
    if e.found == None {
      NewUdIsOwn(w, c, e.o, e.t, e.isConst, e.owner == OwnedByLua);
    } else {
      AdjustSetsObject(w, c, e.found.value, e.o, e.t, e.isConst);
    }
  }

  lemma NewUdIsOwn(w: World, c: Cache, o: nat, t: nat, isConst: bool, gc: bool)
    requires w.Ok() && Sane(w, c) && t in w.bases
    ensures var c' := AddPtr(w, c, o, t, isConst, gc);
            KeepsObjects(c, c') && c.next in c'.uds && c'.uds[c.next].obj == o && c'.uds.Keys == c.uds.Keys + {c.next}
  {
    NewUdKeepsFlags(w, c, o, t, isConst, gc);
  }

  lemma AdjustSetsObject(w: World, c: Cache, u: nat, o: nat, t: nat, isConst: bool)
    requires w.Ok() && t in w.bases && u in c.uds && c.uds[u].typ in w.bases
    ensures var c' := Adjust(w, c, u, o, t, isConst);
            && c'.uds.Keys == c.uds.Keys
            && c'.uds[u].obj == (if Narrower(w, c.uds[u].typ, t) then c.uds[u].obj else o)
            && forall v :: v in c.uds && v != u ==> c'.uds[v].obj == c.uds[v].obj
  {
    if !Narrower(w, c.uds[u].typ, t) {
      var c1 := c.(uds := c.uds[u := c.uds[u].(obj := o, typ := t, isConst := c.uds[u].isConst && isConst)]);
      AddEachFlags(w, c1, o, w.All(t), u);
    }
  }

  lemma FinalizeTakesNone(w: World, c: Cache, u: nat)
    requires w.Ok() && u in c.pending && c.pending[u].typ in w.bases
    ensures Finalize(w, c, u).next == c.next && Finalize(w, c, u).uds == c.uds
  {
    if c.pending[u].collision {
      CleanSlotsEffect(c.(pending := c.pending - {u}), CleanedBy(w, c.pending[u]));
    }
  }

  lemma OthersKeepObjects(w: World, c: Cache, e: Event)
    requires w.Ok() && !e.Pushing? && Possible(w, c, e)
    ensures FaithfulStep(c, e, After(w, c, e)) && After(w, c, e).uds.Keys <= c.uds.Keys
  {
    match e
    case Owning(u, owner) =>
    case Clearing(u) =>
    case Finalizing(u) => FinalizeTakesNone(w, c, u);
  }

  ghost predicate Faithful(w: World, es: seq<Event>, cs: seq<Cache>)
    requires w.Ok() && IsRun(w, es, cs)
  {
    forall i :: 0 <= i < |es| ==> FaithfulStep(cs[i], es[i], cs[i + 1])
  }

  /** A run is faithful exactly when no push found the userdata of another object. */
  lemma RunIsFaithfulIff(w: World, es: seq<Event>, cs: seq<Cache>)
    requires w.Ok() && IsRun(w, es, cs)
    ensures Faithful(w, es, cs) <==> forall i :: 0 <= i < |es| && es[i].Pushing? ==> Own(cs[i], es[i].o, es[i].found)
  {
    forall i | 0 <= i < |es|
      ensures FaithfulStep(cs[i], es[i], cs[i + 1]) <==> (es[i].Pushing? ==> Own(cs[i], es[i].o, es[i].found))
    {
      assert Possible(w, cs[i], es[i]) && cs[i + 1] == After(w, cs[i], es[i]);
      if es[i].Pushing? {
        FlagsInEveryRun(w, es, cs, i);
        PushIsFaithfulIff(w, cs[i], es[i]);
      } else {
        OthersKeepObjects(w, cs[i], es[i]);
      }
    }
    if Faithful(w, es, cs) {
      forall i | 0 <= i < |es| && es[i].Pushing? ensures Own(cs[i], es[i].o, es[i].found) {
        assert FaithfulStep(cs[i], es[i], cs[i + 1]);
      }
    }
  }

  lemma {:induction false} AddEachTakesNumbers(w: World, c: Cache, o: nat, list: seq<nat>, u: nat)
    ensures c.next <= AddEach(w, c, o, list, u).next
    decreases |list|
  {
    if list != [] {
      AddEachTakesNumbers(w, AddIfRequired(c, w.at(o, list[0]), u), o, list[1..], u);
    }
  }

  lemma AddPtrTakesNumbers(w: World, c: Cache, o: nat, t: nat, isConst: bool, gc: bool)
    requires w.Ok() && t in w.bases
    ensures c.next <= AddPtr(w, c, o, t, isConst, gc).next
  {
    var c1 := c.(uds := c.uds[c.next := Ud(o, t, isConst, gc, false)], next := c.next + 1);
    AddEachTakesNumbers(w, AddIfRequired(c1, w.at(o, t), c.next), o, w.All(t), c.next);
  }

  lemma AdjustTakesNumbers(w: World, c: Cache, u: nat, o: nat, t: nat, isConst: bool)
    requires w.Ok() && t in w.bases && u in c.uds && c.uds[u].typ in w.bases
    ensures c.next <= Adjust(w, c, u, o, t, isConst).next
  {
    if !Narrower(w, c.uds[u].typ, t) {
      var c1 := c.(uds := c.uds[u := c.uds[u].(obj := o, typ := t, isConst := c.uds[u].isConst && isConst)]);
      AddEachTakesNumbers(w, c1, o, w.All(t), u);
    }
  }

  /** Numbers are not used again. */
  lemma NumbersAreNew(w: World, c: Cache, e: Event)
    requires w.Ok() && Sane(w, c) && Possible(w, c, e)
    ensures c.next <= After(w, c, e).next && After(w, c, e).uds.Keys <= c.uds.Keys + {c.next}
  {
    match e
    case Pushing(o, t, isConst, owner, found) =>
      FoundFits(w, c, o, t, found);
      if found == None {
        NewUdIsOwn(w, c, o, t, isConst, owner == OwnedByLua);
        AddPtrTakesNumbers(w, c, o, t, isConst, owner == OwnedByLua);
      } else {
        AdjustSetsObject(w, c, found.value, o, t, isConst);
        AdjustTakesNumbers(w, c, found.value, o, t, isConst);
      }
    case Owning(u, owner) =>
    case Clearing(u) =>
    case Finalizing(u) => FinalizeTakesNone(w, c, u);
  }

  /** The number is taken, and by a userdata of the object if one is alive. */
  predicate StillFor(c: Cache, u: nat, o: nat) {
    u < c.next && (u in c.uds ==> c.uds[u].obj == o)
  }

  lemma StillForIt(w: World, c: Cache, e: Event, u: nat, o: nat)
    requires w.Ok() && Sane(w, c) && Possible(w, c, e) && FaithfulStep(c, e, After(w, c, e)) && StillFor(c, u, o)
    ensures StillFor(After(w, c, e), u, o)
  {
    NumbersAreNew(w, c, e);
  }

  lemma StillForItInRun(w: World, es: seq<Event>, cs: seq<Cache>, j: nat, u: nat, o: nat)
    requires w.Ok() && IsRun(w, es, cs) && Faithful(w, es, cs) && j < |es| && StillFor(cs[j], u, o)
    ensures StillFor(cs[j + 1], u, o)
  {
    FlagsInEveryRun(w, es, cs, j);
    assert Possible(w, cs[j], es[j]) && FaithfulStep(cs[j], es[j], cs[j + 1]);
    StillForIt(w, cs[j], es[j], u, o);
  }

  /** In a faithful run a userdata stands for one object for as long as it lives. */
  lemma {:induction false} ObjectStays(w: World, es: seq<Event>, cs: seq<Cache>, i: nat, j: nat, u: nat)
    requires w.Ok() && IsRun(w, es, cs) && Faithful(w, es, cs) && i <= j <= |es| && u in cs[i].uds
    ensures StillFor(cs[j], u, cs[i].uds[u].obj)
    decreases j
  {
    if i < j {
      ObjectStays(w, es, cs, i, j - 1, u);
      StillForItInRun(w, es, cs, j - 1, u, cs[i].uds[u].obj);
    } else {
      FlagsInEveryRun(w, es, cs, i);
    }
  }

  /** The event without what a push happened to find. */
  function Asked(e: Event): Event {
    if e.Pushing? then e.(found := None) else e
  }

  /** A run in which the first `n` of these things happen; what the pushes find is the run's own. */
  ghost predicate RunOf(w: World, asked: seq<Event>, n: nat, es: seq<Event>, cs: seq<Cache>)
    requires w.Ok()
  {
    IsRun(w, es, cs) && |es| == n <= |asked| && forall i :: 0 <= i < n ==> Asked(es[i]) == Asked(asked[i])
  }

  /** Every run finds what a push sees first to be the object's own. */
  ghost predicate AlwaysOwnInSight(w: World, asked: seq<Event>)
    requires w.Ok()
  {
    forall n: nat, es, cs :: RunOf(w, asked, n, es, cs) && n < |asked| ==> OwnNext(w, cs[n], asked[n])
  }

  ghost predicate OwnNext(w: World, c: Cache, e: Event)
    requires w.Ok()
  {
    e.Pushing? && e.t in w.bases ==> OwnInSight(w, c, e.o, e.t)
  }

  /**
    Whatever the pushes find, every userdata handed out stands for the object pushed and goes on to do so, exactly when
    related userdata where a push looks first are always the object's own.
   */
  lemma RunsAreFaithfulIff(w: World, asked: seq<Event>)
    requires w.Ok()
    ensures (forall n: nat, es, cs :: RunOf(w, asked, n, es, cs) ==> Faithful(w, es, cs))
       <==> AlwaysOwnInSight(w, asked)
  {
    if AlwaysOwnInSight(w, asked) {
      forall n: nat, es, cs | RunOf(w, asked, n, es, cs) ensures Faithful(w, es, cs) {
        OwnIsFaithful(w, asked, n, es, cs);
      }
    } else {
      var n: nat, es, cs :| RunOf(w, asked, n, es, cs) && n < |asked| && !OwnNext(w, cs[n], asked[n]);
      var es', cs' := StrayPush(w, asked, n, es, cs);
    }
  }

  lemma OwnIsFaithful(w: World, asked: seq<Event>, n: nat, es: seq<Event>, cs: seq<Cache>)
    requires w.Ok() && AlwaysOwnInSight(w, asked) && RunOf(w, asked, n, es, cs)
    ensures Faithful(w, es, cs)
  {
    forall i | 0 <= i < |es| && es[i].Pushing? ensures Own(cs[i], es[i].o, es[i].found) {
      assert RunOf(w, asked, i, es[..i], cs[..i + 1]);
      assert Possible(w, cs[i], es[i]) && Asked(es[i]) == Asked(asked[i]);
      assert OwnNext(w, cs[..i + 1][i], asked[i]);
      FindsOwnIff(w, cs[i], es[i].o, es[i].t);
    }
    RunIsFaithfulIff(w, es, cs);
  }

  /** A run that goes on with a push that finds the userdata of another object. */
  lemma StrayPush(w: World, asked: seq<Event>, n: nat, es: seq<Event>, cs: seq<Cache>)
    returns (es': seq<Event>, cs': seq<Cache>)
    requires w.Ok() && RunOf(w, asked, n, es, cs) && n < |asked| && !OwnNext(w, cs[n], asked[n])
    ensures RunOf(w, asked, n + 1, es', cs') && !Faithful(w, es', cs')
  {
    var c, e := cs[n], asked[n];
    FindsOwnIff(w, c, e.o, e.t);
    var r :| Found(w, c, e.o, e.t, r) && !Own(c, e.o, r);
    var f := e.(found := r);
    es', cs' := es + [f], cs + [After(w, c, f)];
    RunGoesOn(w, es, cs, f);
    FlagsInEveryRun(w, es, cs, n);
    PushIsFaithfulIff(w, c, f);
    assert !FaithfulStep(cs'[n], es'[n], cs'[n + 1]);
  }

  lemma RunGoesOn(w: World, es: seq<Event>, cs: seq<Cache>, e: Event)
    requires w.Ok() && IsRun(w, es, cs) && Possible(w, cs[|es|], e)
    ensures IsRun(w, es + [e], cs + [After(w, cs[|es|], e)])
  {
    var es', cs' := es + [e], cs + [After(w, cs[|es|], e)];
    forall i | 0 <= i < |es'| ensures Possible(w, cs'[i], es'[i]) && cs'[i + 1] == After(w, cs'[i], es'[i]) {
      if i < |es| {
        assert Possible(w, cs[i], es[i]) && cs[i + 1] == After(w, cs[i], es[i]);
      }
    }
  }

  // ---- a member that is never found ----

  /** The whole is pushed first. */
  const WHOLE_ONLY := Cache(map[0 := TAKEN], map[], map[100 := Single(0), 108 := Single(0), 104 := Single(0)], {}, 1)

  lemma {:induction false} NothingInEmpty(w: World, o: nat, t: nat, roots: seq<nat>)
    requires w.Ok() && t in w.bases
    ensures FoundAtRoots(w, EMPTY, o, t, roots, None)
    decreases |roots|
  {
    if roots != [] {
      NothingInEmpty(w, o, t, roots[1..]);
    }
  }

  lemma PushesWholeFirst()
    ensures Steps(EMPTY, Pushing(0, WHOLE, false, NoChange, None), WHOLE_ONLY)
  {
    LayoutBases();
    LayoutRoots();
    assert [SIDE][1..] == [] && [TOP, SIDE][1..] == [SIDE] && [HOLDER, TOP, SIDE][1..] == [TOP, SIDE];
    assert [PART, HOLDER, TOP, SIDE][1..] == [HOLDER, TOP, SIDE];
    NothingInEmpty(LAYOUT, 0, WHOLE, LAYOUT.Roots(WHOLE));
    var c := AddIfRequired(EMPTY.(uds := map[0 := TAKEN], next := 1), 100, 0);
    var c' := AddIfRequired(c, 108, 0);
    assert AddEach(LAYOUT, c', 0, [SIDE], 0) == WHOLE_ONLY;
    assert AddEach(LAYOUT, c', 0, [TOP, SIDE], 0) == WHOLE_ONLY;
    assert AddEach(LAYOUT, c, 0, [HOLDER, TOP, SIDE], 0) == WHOLE_ONLY;
    assert AddEach(LAYOUT, c, 0, [PART, HOLDER, TOP, SIDE], 0) == WHOLE_ONLY;
    assert EMPTY.uds[0 := TAKEN] == map[0 := TAKEN];
    assert Push(LAYOUT, EMPTY, 0, WHOLE, false, NoChange, None) == WHOLE_ONLY;
  }

  lemma PushesMemberNext()
    ensures Steps(WHOLE_ONLY, Pushing(1, PART, false, NoChange, Some(0)), WHOLE_ONLY)
    ensures Contained(LAYOUT, WHOLE_ONLY, 1, PART, Some(0))
    ensures forall r :: Found(LAYOUT, WHOLE_ONLY, 1, PART, r) ==> r == Some(0)
  {
    LayoutBases();
  }

  /**
    The layout of before, the other way round: the whole is pushed and then the member, whose class is a base of the
    whole's.  The push of the member can only hand out the userdata of the whole.  No upgrade is made, and the cache is
    valid throughout.
   */
  lemma MemberIsNeverFound()
    ensures LAYOUT.Ok()
    ensures var es := [Pushing(0, WHOLE, false, NoChange, None), Pushing(1, PART, false, NoChange, Some(0))];
            var cs := [EMPTY, WHOLE_ONLY, WHOLE_ONLY];
            IsRun(LAYOUT, es, cs) && ContainedUpTo(LAYOUT, es, cs, 2) && !Faithful(LAYOUT, es, cs)
    ensures forall r :: Found(LAYOUT, WHOLE_ONLY, 1, PART, r) ==> r == Some(0)
    ensures WHOLE_ONLY.uds[0].obj == 0 && Valid(LAYOUT, WHOLE_ONLY)
  {
    var es := [Pushing(0, WHOLE, false, NoChange, None), Pushing(1, PART, false, NoChange, Some(0))];
    var cs := [EMPTY, WHOLE_ONLY, WHOLE_ONLY];
    PushesWholeFirst();
    PushesMemberNext();
    RunIsFaithfulIff(LAYOUT, es, cs);
    RunsAreValidIff(LAYOUT, es, cs, 2);
    assert Valid(LAYOUT, cs[1]);
  }
}
