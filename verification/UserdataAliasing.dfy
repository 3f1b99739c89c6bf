/**
  What the userdata cache keeps when an upgrade takes the userdata of one object for that of another, and what it loses:
  a run that hands out the wrong userdata and leaves a collision table behind.
*/
module UserdataAliasing {
  import opened Wrappers

  import opened TypeLists
  import opened UserdataModel
  import opened UserdataCollector

  // ---- what every run keeps ----

  ghost predicate Alive(c: Cache) {
    forall p, u {:trigger u in Holds(c, p)} :: u in Holds(c, p) ==> u in c.uds
  }

  ghost predicate FlaggedTables(c: Cache) {
    forall p, u {:trigger u in Holds(c, p)} :: p in c.slots && c.slots[p].Table? && u in Holds(c, p) ==>
      u in c.uds && c.uds[u].collision
  }

  /** What holds whether or not upgrades are contained. */
  ghost predicate Sane(w: World, c: Cache) {
    Known(w, c) && Alive(c) && FlaggedTables(c) && Anchored(c)
  }

  lemma AddKeepsKnown(w: World, c: Cache, p: nat, u: nat)
    requires Sane(w, c) && u in c.uds
    ensures var c' := AddIfRequired(c, p, u);
            && Known(w, c') && SameButFlags(c.uds, c'.uds)
            && (u in Holds(c', p) && c'.slots[p].Table? ==> c'.uds[u].collision)
  {
    if p in c.slots && c.slots[p].Single? {
      assert c.slots[p].ud in Holds(c, p);
    } else if u in Holds(c, p) {
    }
  }

  lemma AddKeepsFlagged(w: World, c: Cache, p: nat, u: nat, q: nat, v: nat)
    requires Sane(w, c) && u in c.uds && v in Holds(AddIfRequired(c, p, u), q)
    ensures var c' := AddIfRequired(c, p, u);
            v in c'.uds && (c'.slots[q].Table? ==> c'.uds[v].collision)
  {
    AddInsertsOne(c, p, u, q);
    AddKeepsKnown(w, c, p, u);
    if q != p || v != u {
      assert v in Holds(c, q);
    }
  }

  lemma AddKeepsSane(w: World, c: Cache, p: nat, u: nat)
    requires Sane(w, c) && u in c.uds
    ensures Sane(w, AddIfRequired(c, p, u)) && u in AddIfRequired(c, p, u).uds
  {
    var c' := AddIfRequired(c, p, u);
    AddKeepsAnchored(w, c, p, u);
    AddKeepsKnown(w, c, p, u);
    forall q, v {:trigger v in Holds(c', q)} | v in Holds(c', q)
      ensures v in c'.uds && (c'.slots[q].Table? ==> c'.uds[v].collision)
    {
      AddKeepsFlagged(w, c, p, u, q, v);
    }
  }

  lemma {:induction false} AddEachKeepsSane(w: World, c: Cache, o: nat, list: seq<nat>, u: nat)
    requires Sane(w, c) && u in c.uds
    ensures Sane(w, AddEach(w, c, o, list, u)) && u in AddEach(w, c, o, list, u).uds
    decreases |list|
  {
    if list != [] {
      AddKeepsSane(w, c, w.at(o, list[0]), u);
      AddEachKeepsSane(w, AddIfRequired(c, w.at(o, list[0]), u), o, list[1..], u);
    }
  }

  lemma ChangeKeepsSane(w: World, c: Cache, u: nat, ud: Ud)
    requires Sane(w, c) && ud.typ in w.bases && u !in c.pending
    requires u in c.uds ==> ud.collision == c.uds[u].collision
    requires u !in c.uds ==> u == c.next
    ensures var next := if u in c.uds then c.next else c.next + 1;
            Sane(w, c.(uds := c.uds[u := ud], next := next))
  {
    var c1 := c.(uds := c.uds[u := ud], next := if u in c.uds then c.next else c.next + 1);
    forall p, v {:trigger v in Holds(c1, p)} | v in Holds(c1, p)
      ensures v in c1.uds && (p in c1.slots && c1.slots[p].Table? ==> c1.uds[v].collision)
    {
      assert v in Holds(c, p);
    }
  }

  lemma PushKeepsSane(w: World, c: Cache, o: nat, t: nat, isConst: bool, owner: Owner, r: Option<nat>)
    requires w.Ok() && Sane(w, c) && t in w.bases && Found(w, c, o, t, r)
    ensures Sane(w, Push(w, c, o, t, isConst, owner, r))
  {
    FoundFits(w, c, o, t, r);
    if r == None {
      var ud := Ud(o, t, isConst, owner == OwnedByLua, false);
      ChangeKeepsSane(w, c, c.next, ud);
      var c1 := c.(uds := c.uds[c.next := ud], next := c.next + 1);
      AddKeepsSane(w, c1, w.at(o, t), c.next);
      AddEachKeepsSane(w, AddIfRequired(c1, w.at(o, t), c.next), o, w.All(t), c.next);
    } else {
      AdjustKeepsSane(w, c, r.value, o, t, isConst);
      OwnerKeepsSane(w, Adjust(w, c, r.value, o, t, isConst), r.value, owner);
    }
  }

  lemma AdjustKeepsSane(w: World, c: Cache, u: nat, o: nat, t: nat, isConst: bool)
    requires w.Ok() && Sane(w, c) && t in w.bases && u in c.uds && c.uds[u].typ in w.bases
    ensures Sane(w, Adjust(w, c, u, o, t, isConst))
  {
    var ud := c.uds[u].(isConst := c.uds[u].isConst && isConst);
    if Narrower(w, ud.typ, t) {
      ChangeKeepsSane(w, c, u, ud);
    } else {
      ChangeKeepsSane(w, c, u, ud.(obj := o, typ := t));
      AddEachKeepsSane(w, c.(uds := c.uds[u := ud.(obj := o, typ := t)]), o, w.All(t), u);
    }
  }

  lemma OwnerKeepsSane(w: World, c: Cache, u: nat, owner: Owner)
    requires Sane(w, c)
    ensures Sane(w, SetOwner(c, u, owner))
  {
    if owner != NoChange && u in c.uds {
      ChangeKeepsSane(w, c, u, c.uds[u].(gc := owner == OwnedByLua));
    }
  }

  lemma ClearKeepsSane(w: World, c: Cache, u: nat)
    requires Sane(w, c) && u in c.uds
    ensures Sane(w, Clear(c, u))
  {
    var c' := Clear(c, u);
    ClearKeepsAnchored(c, u);
    forall p, v {:trigger v in Holds(c', p)} | v in Holds(c', p)
      ensures v in c'.uds && (p in c'.slots && c'.slots[p].Table? ==> c'.uds[v].collision)
    {
      ClearRemoves(c, u, p);
      assert v in Holds(c, p);
    }
  }

  lemma FinalizeKeepsSane(w: World, c: Cache, u: nat)
    requires w.Ok() && Sane(w, c) && u in c.pending && c.pending[u].typ in w.bases
    ensures Sane(w, Finalize(w, c, u))
  {
    var c1, c' := c.(pending := c.pending - {u}), Finalize(w, c, u);
    if c.pending[u].collision {
      CleanSlotsEffect(c1, CleanedBy(w, c.pending[u]));
      CleanSlotsAnchors(c1, CleanedBy(w, c.pending[u]));
    }
    forall p, v {:trigger v in Holds(c', p)} | v in Holds(c', p)
      ensures v in c'.uds && (p in c'.slots && c'.slots[p].Table? ==> c'.uds[v].collision)
    {
      assert v in Holds(c, p);
    }
  }

  /**
    In every run, at every point, contained or not: what a slot holds is alive, whatever is in a collision table carries
    the collision flag, and the anchored tables are those in the slots.
   */
  lemma {:induction false} FlagsInEveryRun(w: World, es: seq<Event>, cs: seq<Cache>, n: nat)
    requires w.Ok() && IsRun(w, es, cs) && n <= |es|
    ensures Alive(cs[n]) && FlaggedTables(cs[n]) && Anchored(cs[n]) && Known(w, cs[n])
  {
    if n > 0 {
      FlagsInEveryRun(w, es, cs, n - 1);
      var c := cs[n - 1];
      assert Possible(w, c, es[n - 1]) && cs[n] == After(w, c, es[n - 1]);
      match es[n - 1]
      case Pushing(o, t, isConst, owner, found) => PushKeepsSane(w, c, o, t, isConst, owner, found);
      case Owning(u, owner) => OwnerKeepsSane(w, c, u, owner);
      case Clearing(u) => ClearKeepsSane(w, c, u);
      case Finalizing(u) => FinalizeKeepsSane(w, c, u);
    }
  }

  /** So when all userdata are collected, all that can be left is empty collision tables, each with its anchor. */
  lemma OnlyEmptyTablesAreLeft(w: World, es: seq<Event>, cs: seq<Cache>, n: nat)
    requires w.Ok() && IsRun(w, es, cs) && n <= |es|
    ensures var c := cs[n];
            c.uds == map[] ==>
              forall p :: p in c.slots ==> c.slots[p].Table? && c.slots[p].uds == {} && c.slots[p].id in c.anchors
  {
    FlagsInEveryRun(w, es, cs, n);
    var c := cs[n];
    if c.uds == map[] {
      forall p | p in c.slots ensures c.slots[p].Table? && c.slots[p].uds == {} {
        assert forall u :: u in Holds(c, p) ==> u in c.uds;
        assert Holds(c, p) == {};
      }
    }
  }

  // ---- a run that is not contained ----

  const TOP := 0
  const SIDE := 1
  const PART := 2
  const HOLDER := 3
  const WHOLE := 4
  const OTHER := 5

  /**
    A class WHOLE with the bases PART and HOLDER; PART has the bases TOP and SIDE, and HOLDER has a member of class
    PART. Object 0 is a WHOLE at address 100, object 1 the member in its HOLDER at 108, and object 2 an OTHER at 112,
    where the SIDE of the member lies.
   */
  const LAYOUT := World(map[TOP := [], SIDE := [], PART := [TOP, SIDE], HOLDER := [],
                            WHOLE := [PART, HOLDER], OTHER := []],
                        map[TOP := 0, SIDE := 0, PART := 1, HOLDER := 0, WHOLE := 2, OTHER := 0],
                        (o, t) => At(o, t))

  function At(o: nat, t: nat): nat {
    if o == 0 then (if t == SIDE then 104 else if t == HOLDER then 108 else 100)
    else if o == 1 then (if t == SIDE then 112 else 108)
    else 112
  }

  lemma NoBases(w: World, t: nat)
    requires w.Ok() && t in w.bases && w.bases[t] == []
    ensures w.All(t) == [] && w.Roots(t) == []
  {
    assert w.All(t) == w.bases[t] + BasesOfEach(w.bases, w.rank, w.bases[t], w.rank[t]);
  }

  lemma TwoBases(w: World, t: nat, a: nat, b: nat)
    requires w.Ok() && t in w.bases && w.bases[t] == [a, b] && a in w.bases && b in w.bases
    ensures w.All(t) == [a, b] + w.All(a) + w.All(b)
  {
    var list, bound := w.bases[t], w.rank[t];
    assert a in list && b in list;
    assert list[1..] == [b] && list[1..][1..] == [];
    assert BasesOfEach(w.bases, w.rank, [b], bound) == w.All(b) + [];
    assert BasesOfEach(w.bases, w.rank, list, bound) == w.All(a) + BasesOfEach(w.bases, w.rank, [b], bound);
  }

  lemma FirstIsRoot(w: World, b: nat, rest: seq<nat>)
    requires b in w.bases
    ensures Rootless(w.bases, [b] + rest) == (if w.bases[b] == [] then [b] else []) + Rootless(w.bases, rest)
  {
    assert ([b] + rest)[1..] == rest;
  }

  lemma LayoutBases()
    ensures LAYOUT.Ok()
    ensures LAYOUT.All(OTHER) == [] && LAYOUT.Roots(OTHER) == []
    ensures LAYOUT.All(PART) == [TOP, SIDE] && LAYOUT.All(WHOLE) == [PART, HOLDER, TOP, SIDE]
  {
    NoBases(LAYOUT, TOP);
    NoBases(LAYOUT, SIDE);
    NoBases(LAYOUT, HOLDER);
    NoBases(LAYOUT, OTHER);
    TwoBases(LAYOUT, PART, TOP, SIDE);
    TwoBases(LAYOUT, WHOLE, PART, HOLDER);
  }

  lemma LayoutRoots()
    ensures LAYOUT.Ok()
    ensures LAYOUT.Roots(PART) == [TOP, SIDE] && LAYOUT.Roots(WHOLE) == [HOLDER, TOP, SIDE]
  {
    LayoutBases();
    FirstIsRoot(LAYOUT, SIDE, []);
    FirstIsRoot(LAYOUT, TOP, [SIDE]);
    FirstIsRoot(LAYOUT, HOLDER, [TOP, SIDE]);
    FirstIsRoot(LAYOUT, PART, [HOLDER, TOP, SIDE]);
    Lists();
  }

  lemma Lists()
    ensures [SIDE] + [] == [SIDE] && [TOP] + [SIDE] == [TOP, SIDE] && [HOLDER] + [TOP, SIDE] == [HOLDER, TOP, SIDE]
    ensures [PART] + [HOLDER, TOP, SIDE] == [PART, HOLDER, TOP, SIDE]
  {
  }

  const MEMBER := Ud(1, PART, false, false, false)
  const TAKEN := Ud(0, WHOLE, false, false, false)
  const STRANGER := Ud(2, OTHER, false, false, false)

  /** The member is pushed. */
  const C1 := Cache(map[0 := MEMBER], map[], map[108 := Single(0), 112 := Single(0)], {}, 1)
  /** The whole is pushed, and takes the member's userdata. */
  const C2 := Cache(map[0 := TAKEN], map[],
                    map[108 := Single(0), 112 := Single(0), 100 := Single(0), 104 := Single(0)], {}, 1)
  /** The stranger is pushed. */
  const C3 := Cache(map[0 := TAKEN.(collision := true), 1 := STRANGER.(collision := true)], map[],
                    C2.slots[112 := Table(2, {0, 1})], {2}, 3)
  /** The stranger is collected. */
  const C4 := C3.(uds := map[0 := C3.uds[0]], pending := map[1 := C3.uds[1]], slots := C2.slots[112 := Table(2, {0})])
  const C5 := C4.(pending := map[])
  /** The whole is collected. */
  const C6 := C5.(uds := map[], pending := map[0 := C3.uds[0]], slots := map[112 := Table(2, {})])
  const C7 := C6.(pending := map[])

  ghost predicate Steps(c: Cache, e: Event, c': Cache) {
    LAYOUT.Ok() && Possible(LAYOUT, c, e) && c' == After(LAYOUT, c, e)
  }

  lemma PushesMember()
    ensures Steps(EMPTY, Pushing(1, PART, false, NoChange, None), C1)
  {
    LayoutBases();
    LayoutRoots();
    assert [SIDE][1..] == [] && [TOP, SIDE][1..] == [SIDE];
    var c := EMPTY.(uds := map[0 := MEMBER], next := 1);
    var c' := AddIfRequired(c, 108, 0);
    assert AddEach(LAYOUT, c', 1, [SIDE], 0) == C1;
    assert AddEach(LAYOUT, c', 1, [TOP, SIDE], 0) == C1;
    assert Found(LAYOUT, EMPTY, 1, PART, None);
    assert C1 == Push(LAYOUT, EMPTY, 1, PART, false, NoChange, None);
  }

  lemma FindsMember()
    ensures LAYOUT.Ok() && Found(LAYOUT, C1, 0, WHOLE, Some(0))
    ensures !Contained(LAYOUT, C1, 0, WHOLE, Some(0))
  {
    LayoutBases();
    LayoutRoots();
    assert WiderAt(LAYOUT, C1, 108, WHOLE) == {0};
    assert 0 in Holds(C1, 112) && 112 !in LAYOUT.Cover(0, WHOLE);
  }

  lemma ResetsMember()
    ensures LAYOUT.Ok() && C2 == Reset(LAYOUT, C1, 0, 0, WHOLE, false)
  {
    LayoutBases();
    var c := C1.(uds := map[0 := TAKEN]);
    assert [SIDE][1..] == [] && [TOP, SIDE][1..] == [SIDE] && [HOLDER, TOP, SIDE][1..] == [TOP, SIDE];
    assert [PART, HOLDER, TOP, SIDE][1..] == [HOLDER, TOP, SIDE];
    var c' := AddIfRequired(c, 100, 0);
    assert AddEach(LAYOUT, c', 0, [SIDE], 0) == C2;
    assert AddEach(LAYOUT, c', 0, [TOP, SIDE], 0) == C2;
    assert AddEach(LAYOUT, c', 0, [HOLDER, TOP, SIDE], 0) == C2;
    assert C1.uds[0 := TAKEN] == map[0 := TAKEN];
  }

  lemma PushesWhole()
    ensures Steps(C1, Pushing(0, WHOLE, false, NoChange, Some(0)), C2)
  {
    FindsMember();
    LayoutBases();
    ResetsMember();
  }

  /** From now on a push of the member returns the userdata of the whole. */
  lemma MemberIsLost()
    ensures LAYOUT.Ok() && Found(LAYOUT, C2, 1, PART, Some(0)) && C2.uds[0].obj == 0
    ensures C2 == Push(LAYOUT, C2, 1, PART, false, NoChange, Some(0))
    ensures !Valid(LAYOUT, C2)
  {
    LayoutBases();
    assert 0 in Holds(C2, 112) && 112 !in LAYOUT.Cover(0, WHOLE);
    assert !Placed(LAYOUT, C2);
  }

  lemma PushesStranger()
    ensures Steps(C2, Pushing(2, OTHER, false, NoChange, None), C3)
  {
    LayoutBases();
    LayoutRoots();
    var c := C2.(uds := map[0 := TAKEN, 1 := STRANGER], next := 2);
    assert AddIfRequired(c, 112, 1) == C3;
  }

  lemma ClearsStranger()
    ensures Steps(C3, Clearing(1), C4)
  {
    LayoutBases();
    assert {0, 1} - {1} == {0};
    assert C4.slots == Clear(C3, 1).slots && C4.uds == Clear(C3, 1).uds;
  }

  lemma ClearsWhole()
    ensures Steps(C5, Clearing(0), C6)
  {
    LayoutBases();
    assert {0} - {0} == {};
    assert C6.slots == Clear(C5, 0).slots && C6.uds == Clear(C5, 0).uds;
  }

  lemma FinalizesStranger()
    ensures Steps(C4, Finalizing(1), C5)
  {
    LayoutBases();
    var ud := C4.pending[1];
    assert LAYOUT.bases[OTHER] == [];
    var ps := CleanedBy(LAYOUT, ud);
    assert ps == [112] && ps[1..] == [];
    assert C4.(pending := C4.pending - {1}) == C5;
    assert CleanSlots(C5, ps) == C5;
  }

  /** The addresses of a whole do not include 112. */
  lemma CleansWhole()
    ensures LAYOUT.Ok() && CleanedBy(LAYOUT, C6.pending[0]) == [100, 108, 104]
  {
    LayoutBases();
    var w := LAYOUT;
    var none: seq<nat> := [];
    assert [SIDE][1..] == none && [TOP, SIDE][1..] == [SIDE] && [PART, HOLDER][1..] == [HOLDER]
           && [HOLDER][1..] == none;
    assert BaseAddresses(w, 0, TOP, w.bases[TOP], 0) == [] && BaseAddresses(w, 0, SIDE, w.bases[SIDE], 0) == [];
    assert BaseAddresses(w, 0, HOLDER, w.bases[HOLDER], 0) == [];
    assert BaseAddresses(w, 0, PART, [SIDE], 1) == [104];
    assert BaseAddresses(w, 0, PART, [TOP, SIDE], 1) == [104];
    assert BaseAddresses(w, 0, WHOLE, [HOLDER], 2) == [108];
    assert BaseAddresses(w, 0, WHOLE, [PART, HOLDER], 2) == [108, 104];
  }

  lemma FinalizesWhole()
    ensures Steps(C6, Finalizing(0), C7)
  {
    CleansWhole();
    LayoutBases();
    assert C6.(pending := C6.pending - {0}) == C7;
    var ps := [100, 108, 104];
    assert ps[1..] == [108, 104] && ps[1..][1..] == [104] && ps[1..][1..][1..] == [];
    assert CleanSlots(C7, [104]) == C7 && CleanSlots(C7, [108, 104]) == C7 && CleanSlots(C7, ps) == C7;
  }

  const EVENTS := [Pushing(1, PART, false, NoChange, None), Pushing(0, WHOLE, false, NoChange, Some(0)),
                   Pushing(2, OTHER, false, NoChange, None),
                   Clearing(1), Finalizing(1), Clearing(0), Finalizing(0)]
  const STATES := [EMPTY, C1, C2, C3, C4, C5, C6, C7]

  lemma StepFits(i: nat)
    requires i < |EVENTS|
    ensures Steps(STATES[i], EVENTS[i], STATES[i + 1])
  {
    match i
    case 0 => PushesMember();
    case 1 => PushesWhole();
    case 2 => PushesStranger();
    case 3 => ClearsStranger();
    case 4 => FinalizesStranger();
    case 5 => ClearsWhole();
    case 6 => FinalizesWhole();
  }

  /**
    Not every order of pushes and collections cleans up: the member, then the whole it is part of, which takes the
    member's userdata, then an unrelated object.  Once all are collected a collision table and its anchor are left.
   */
  lemma AliasingLeavesTable()
    ensures LAYOUT.Ok() && IsRun(LAYOUT, EVENTS, STATES)
    ensures C7.uds == map[] && C7.pending == map[] && 112 in C7.slots && C7.anchors == {2}
  {
    LayoutBases();
    forall i | 0 <= i < |EVENTS|
      ensures Possible(LAYOUT, STATES[i], EVENTS[i]) && STATES[i + 1] == After(LAYOUT, STATES[i], EVENTS[i])
    {
      StepFits(i);
    }
  }

  const D3 := C2.(uds := map[], pending := map[0 := TAKEN], slots := map[])
  const D4 := D3.(pending := map[])

  const CLEAN_EVENTS := [Pushing(1, PART, false, NoChange, None), Pushing(0, WHOLE, false, NoChange, Some(0)),
                         Clearing(0), Finalizing(0)]
  const CLEAN_STATES := [EMPTY, C1, C2, D3, D4]

  lemma CleanStepFits(i: nat)
    requires i < |CLEAN_EVENTS|
    ensures Steps(CLEAN_STATES[i], CLEAN_EVENTS[i], CLEAN_STATES[i + 1])
  {
    match i
    case 0 => PushesMember();
    case 1 => PushesWhole();
    case 2 =>
      LayoutBases();
      assert Clear(C2, 0) == D3;
    case 3 =>
      LayoutBases();
      assert Finalize(LAYOUT, D3, 0) == D4;
  }

  /** Without the unrelated object the same two pushes leave nothing behind, although the upgrade is not contained. */
  lemma AliasingCanCleanUp()
    ensures LAYOUT.Ok() && IsRun(LAYOUT, CLEAN_EVENTS, CLEAN_STATES)
    ensures !ContainedUpTo(LAYOUT, CLEAN_EVENTS, CLEAN_STATES, |CLEAN_EVENTS|)
    ensures D4.uds == map[] && D4.pending == map[] && D4.slots == map[] && D4.anchors == {}
  {
    LayoutBases();
    FindsMember();
    forall i | 0 <= i < |CLEAN_EVENTS|
      ensures Possible(LAYOUT, CLEAN_STATES[i], CLEAN_EVENTS[i])
      ensures CLEAN_STATES[i + 1] == After(LAYOUT, CLEAN_STATES[i], CLEAN_EVENTS[i])
    {
      CleanStepFits(i);
    }
    assert CLEAN_EVENTS[1].Pushing?;
  }
}
