/**
  The cache from object addresses to Lua userdata, as a value and as the functions its operations compute.

  One address can belong to several objects (an object and its first member) and one object has an address for each of
  its base subobjects.  A slot of the weak table holds one userdata or, after a collision, a
  table of them, which the weak table also keeps alive through an anchoring entry.
*/
module UserdataModel {
  import opened Wrappers

  import opened ClassGraph
  import opened TypeLists

  /** The registered classes and where the subobjects of each object lie: `at(o, t)` for the subobject of class `t`. */
  datatype World = World(bases: map<nat, seq<nat>>, rank: map<nat, nat>, at: (nat, nat) -> nat) {
    ghost predicate Ok() {
      Ranked(bases, rank)
    }

    function All(t: nat): seq<nat>
      requires Ok() && t in bases
    {
      AllBases(bases, rank, t)
    }

    function Roots(t: nat): seq<nat>
      requires Ok() && t in bases
    {
      RootBases(bases, rank, t)
    }

    /** The addresses of the object as a `t`: its own and those of all bases. */
    ghost function Cover(o: nat, t: nat): set<nat>
      requires Ok() && t in bases
    {
      {at(o, t)} + set b | b in All(t) :: at(o, b)
    }

    /** A userdata is registered only at addresses of its object. */
    ghost predicate Covers(ud: Ud, p: nat)
      requires Ok()
    {
      ud.typ in bases && p in Cover(ud.obj, ud.typ)
    }
  }

  datatype Ud = Ud(obj: nat, typ: nat, isConst: bool, gc: bool, collision: bool)

  datatype Slot = Single(ud: nat) | Table(id: nat, uds: set<nat>)

  /**
    `uds` are the userdata alive, `pending` those that Lua has cleared from the weak values and whose finalizer has not
    run; `anchors` are the collision tables that the weak table keeps alive.
   */
  datatype Cache = Cache(uds: map<nat, Ud>, pending: map<nat, Ud>, slots: map<nat, Slot>, anchors: set<nat>, next: nat)

  const EMPTY := Cache(map[], map[], map[], {}, 0)

  /** The abstract view: the userdata registered at an address. */
  function Holds(c: Cache, p: nat): set<nat> {
    if p !in c.slots then {}
    else match c.slots[p]
         case Single(u) => {u}
         case Table(_, us) => us
  }

  function Flagged(uds: map<nat, Ud>, u: nat): map<nat, Ud> {
    if u in uds then uds[u := uds[u].(collision := true)] else uds
  }

  /** `add_ptr_if_required`. */
  function AddIfRequired(c: Cache, p: nat, u: nat): Cache {
    if p !in c.slots then c.(slots := c.slots[p := Single(u)])
    else match c.slots[p]
         case Single(v) =>
           if v == u then c
           else c.(uds := Flagged(Flagged(c.uds, u), v), slots := c.slots[p := Table(c.next, {v, u})],
                   anchors := c.anchors + {c.next}, next := c.next + 1)
         case Table(id, us) =>
           if u in us then c
           else c.(uds := Flagged(c.uds, u), slots := c.slots[p := Table(id, us + {u})])
  }

  /** What must hold between any two steps of an operation. */
  ghost predicate Consistent(w: World, c: Cache)
    requires w.Ok()
  {
    && Known(w, c) && Placed(w, c) && Anchored(c)
    && forall p {:trigger Tended(w, c, p)} :: p in c.slots ==> Tended(w, c, p)
  }

  ghost predicate Known(w: World, c: Cache) {
    && (forall u :: u in c.uds ==> u < c.next && u !in c.pending && c.uds[u].typ in w.bases)
    && (forall u :: u in c.pending ==> u < c.next && c.pending[u].typ in w.bases)
  }

  /** What a slot holds is alive and belongs there. */
  ghost predicate Placed(w: World, c: Cache)
    requires w.Ok()
  {
    forall p, u {:trigger u in Holds(c, p)} :: u in Holds(c, p) ==> u in c.uds && w.Covers(c.uds[u], p)
  }

  /** The anchors are the collision tables in the slots, each in one slot. */
  ghost predicate Anchored(c: Cache) {
    && (forall p :: p in c.slots && c.slots[p].Table? ==> c.slots[p].id in c.anchors)
    && (forall p, q :: p in c.slots && q in c.slots && c.slots[p].Table? && c.slots[q].Table? && p != q ==>
          c.slots[p].id != c.slots[q].id)
    && (forall id :: id in c.anchors ==>
          id < c.next && exists p :: p in c.slots && c.slots[p].Table? && c.slots[p].id == id)
  }

  /** In a collision table all carry the flag, and an empty table awaits a finalizer that will remove it. */
  ghost predicate Tended(w: World, c: Cache, p: nat)
    requires w.Ok() && p in c.slots
  {
    c.slots[p].Table? ==>
      && (forall u :: u in c.slots[p].uds ==> u in c.uds && c.uds[u].collision)
      && (c.slots[p].uds == {} ==> Awaited(w, c.pending, p))
  }

  ghost predicate Awaited(w: World, pending: map<nat, Ud>, p: nat)
    requires w.Ok()
  {
    exists v :: v in pending && pending[v].collision && w.Covers(pending[v], p)
  }

  /** Each add inserts exactly the one pair. */
  lemma AddInsertsOne(c: Cache, p: nat, u: nat, q: nat)
    ensures Holds(AddIfRequired(c, p, u), q) == if q == p then Holds(c, p) + {u} else Holds(c, q)
  {
  }

  /** The same userdata, possibly with the collision flag set in between. */
  predicate SameButFlag(a: Ud, b: Ud) {
    b == a || b == a.(collision := true)
  }

  /** Adding changes no userdata but for the collision flag. */
  ghost predicate SameButFlags(a: map<nat, Ud>, b: map<nat, Ud>) {
    && a.Keys == b.Keys
    && forall u :: u in a ==> SameButFlag(a[u], b[u])
  }

  lemma AddKeepsFlags(w: World, c: Cache, p: nat, u: nat)
    requires w.Ok() && Known(w, c) && Placed(w, c) && u in c.uds
    ensures var c' := AddIfRequired(c, p, u);
            SameButFlags(c.uds, c'.uds) && c'.pending == c.pending && c.next <= c'.next && Known(w, c')
  {
    if p in c.slots && c.slots[p].Single? {
      assert c.slots[p].ud in Holds(c, p);
    }
  }

  lemma AddKeepsPlaced(w: World, c: Cache, p: nat, u: nat)
    requires w.Ok() && Consistent(w, c) && u in c.uds && w.Covers(c.uds[u], p)
    ensures Placed(w, AddIfRequired(c, p, u))
  {
    var c' := AddIfRequired(c, p, u);
    forall q, v {:trigger v in Holds(c', q)} | v in Holds(c', q) ensures v in c'.uds && w.Covers(c'.uds[v], q) {
      AddInsertsOne(c, p, u, q);
      assert (q == p && v == u) || v in Holds(c, q);
    }
  }

  lemma AddKeepsTended(w: World, c: Cache, p: nat, u: nat, q: nat)
    requires w.Ok() && Consistent(w, c) && u in c.uds
    requires q in AddIfRequired(c, p, u).slots
    ensures Tended(w, AddIfRequired(c, p, u), q)
  {
    if q in c.slots {
      assert Tended(w, c, q);
      if c.slots[q].Single? {
        assert c.slots[q].ud in Holds(c, q);
      }
    }
  }

  lemma AddKeepsConsistent(w: World, c: Cache, p: nat, u: nat)
    requires w.Ok() && Consistent(w, c) && u in c.uds && w.Covers(c.uds[u], p)
    ensures Consistent(w, AddIfRequired(c, p, u))
  {
    AddKeepsFlags(w, c, p, u);
    AddKeepsPlaced(w, c, p, u);
    AddKeepsAnchored(w, c, p, u);
    forall q | q in AddIfRequired(c, p, u).slots ensures Tended(w, AddIfRequired(c, p, u), q) {
      AddKeepsTended(w, c, p, u, q);
    }
  }

  lemma AddKeepsAnchored(w: World, c: Cache, p: nat, u: nat)
    requires Anchored(c)
    ensures Anchored(AddIfRequired(c, p, u))
  {
    var c' := AddIfRequired(c, p, u);
    forall id | id in c'.anchors
      ensures id < c'.next && exists q :: q in c'.slots && c'.slots[q].Table? && c'.slots[q].id == id
    {
      if id in c.anchors {
        var q :| q in c.slots && c.slots[q].Table? && c.slots[q].id == id;
        assert q in c'.slots && c'.slots[q].Table? && c'.slots[q].id == id;
      } else {
        assert c'.slots[p].id == id;
      }
    }
    AddKeepsTableIds(c, p, u);
  }

  lemma AddKeepsTableIds(c: Cache, p: nat, u: nat)
    requires Anchored(c)
    ensures var c' := AddIfRequired(c, p, u);
            && (forall q :: q in c'.slots && c'.slots[q].Table? ==> c'.slots[q].id in c'.anchors)
            && (forall q, r :: q in c'.slots && r in c'.slots && c'.slots[q].Table? && c'.slots[r].Table? && q != r ==>
                  c'.slots[q].id != c'.slots[r].id)
  {
    var c' := AddIfRequired(c, p, u);
    assert forall q :: q in c'.slots && q != p ==> q in c.slots && c'.slots[q] == c.slots[q];
  }

  // ---- pushing a pointer ----

  /** `Add_ptr`: registers the userdata at the address of each listed base. */
  function AddEach(w: World, c: Cache, o: nat, list: seq<nat>, u: nat): Cache
    decreases |list|
  {
    if list == [] then c else AddEach(w, AddIfRequired(c, w.at(o, list[0]), u), o, list[1..], u)
  }

  lemma {:induction false} AddEachInserts(w: World, c: Cache, o: nat, list: seq<nat>, u: nat, p: nat)
    ensures Holds(AddEach(w, c, o, list, u), p) ==
            Holds(c, p) + if exists b :: b in list && w.at(o, b) == p then {u} else {}
    decreases |list|
  {
    if list != [] {
      var c' := AddIfRequired(c, w.at(o, list[0]), u);
      AddInsertsOne(c, w.at(o, list[0]), u, p);
      AddEachInserts(w, c', o, list[1..], u, p);
      if b :| b in list && w.at(o, b) == p {
        assert b == list[0] || b in list[1..];
      }
      assert list[0] in list && forall b :: b in list[1..] ==> b in list;
    }
  }

  lemma {:induction false} AddEachFlags(w: World, c: Cache, o: nat, list: seq<nat>, u: nat)
    ensures SameButFlags(c.uds, AddEach(w, c, o, list, u).uds)
    decreases |list|
  {
    if list != [] {
      var c' := AddIfRequired(c, w.at(o, list[0]), u);
      assert SameButFlags(c.uds, c'.uds);
      AddEachFlags(w, c', o, list[1..], u);
    }
  }

  lemma {:induction false} AddEachKeeps(w: World, c: Cache, o: nat, list: seq<nat>, u: nat)
    requires w.Ok() && Consistent(w, c) && u in c.uds
    requires forall b :: b in list ==> w.Covers(c.uds[u], w.at(o, b))
    ensures Consistent(w, AddEach(w, c, o, list, u))
    ensures SameButFlags(c.uds, AddEach(w, c, o, list, u).uds)
    ensures AddEach(w, c, o, list, u).pending == c.pending && c.next <= AddEach(w, c, o, list, u).next
    decreases |list|
  {
    if list != [] {
      var c' := AddIfRequired(c, w.at(o, list[0]), u);
      assert list[0] in list;
      AddKeepsConsistent(w, c, w.at(o, list[0]), u);
      AddKeepsFlags(w, c, w.at(o, list[0]), u);
      AddEachKeeps(w, c', o, list[1..], u);
    }
  }

  /** `add_ptr`: a new userdata, registered at the object's own address and at those of all bases. */
  function AddPtr(w: World, c: Cache, o: nat, t: nat, isConst: bool, gc: bool): Cache
    requires w.Ok() && t in w.bases
  {
    var c' := c.(uds := c.uds[c.next := Ud(o, t, isConst, gc, false)], next := c.next + 1);
    AddEach(w, AddIfRequired(c', w.at(o, t), c.next), o, w.All(t), c.next)
  }

  lemma NewUdKeepsFlags(w: World, c: Cache, o: nat, t: nat, isConst: bool, gc: bool)
    requires w.Ok() && t in w.bases
    ensures SameButFlags(c.uds[c.next := Ud(o, t, isConst, gc, false)], AddPtr(w, c, o, t, isConst, gc).uds)
  {
    var c1 := c.(uds := c.uds[c.next := Ud(o, t, isConst, gc, false)], next := c.next + 1);
    var c2 := AddIfRequired(c1, w.at(o, t), c.next);
    assert SameButFlags(c1.uds, c2.uds);
    AddEachFlags(w, c2, o, w.All(t), c.next);
  }

  /** `reset_metatable`: the userdata becomes one of the derived class and is registered at all its bases. */
  function Reset(w: World, c: Cache, u: nat, o: nat, t: nat, isConst: bool): Cache
    requires w.Ok() && t in w.bases && u in c.uds
  {
    AddEach(w, c.(uds := c.uds[u := c.uds[u].(obj := o, typ := t, isConst := isConst)]), o, w.All(t), u)
  }

  /** The pushed class is the stored one or one of its bases. */
  predicate Narrower(w: World, stored: nat, t: nat)
    requires w.Ok() && stored in w.bases
  {
    stored == t || t in w.All(stored)
  }

  /** The stored class is a base of the pushed one. */
  predicate Wider(w: World, stored: nat, t: nat)
    requires w.Ok() && t in w.bases
  {
    stored in w.All(t)
  }

  /** The test a userdata at the object's address must pass. */
  predicate Fits(w: World, c: Cache, u: nat, t: nat)
    requires w.Ok() && t in w.bases
  {
    u in c.uds && c.uds[u].typ in w.bases && (Narrower(w, c.uds[u].typ, t) || Wider(w, c.uds[u].typ, t))
  }

  /** The userdata at `p` whose class is a base of `t`. */
  function WiderAt(w: World, c: Cache, p: nat, t: nat): set<nat>
    requires w.Ok() && t in w.bases
  {
    set u | u in Holds(c, p) && u in c.uds && Wider(w, c.uds[u].typ, t)
  }

  /**
    `Has_a_root_entry` over the root bases: the first of them that lies at another address and has a fitting userdata
    there decides.  Which of several in a collision table is met first depends on the table.
   */
  predicate FoundAtRoots(w: World, c: Cache, o: nat, t: nat, roots: seq<nat>, r: Option<nat>)
    requires w.Ok() && t in w.bases
  {
    if roots == [] then r == None
    else
      var p := w.at(o, roots[0]);
      if p != w.at(o, t) && WiderAt(w, c, p, t) != {} then r.Some? && r.value in WiderAt(w, c, p, t)
      else FoundAtRoots(w, c, o, t, roots[1..], r)
  }

  /** What `find_ud` may return for the object `o` pushed as a `t`. */
  predicate Found(w: World, c: Cache, o: nat, t: nat, r: Option<nat>)
    requires w.Ok() && t in w.bases
  {
    var p := w.at(o, t);
    if p !in c.slots then FoundAtRoots(w, c, o, t, w.Roots(t), r)
    else match c.slots[p]
         case Single(u) => if Fits(w, c, u, t) then r == Some(u) else FoundAtRoots(w, c, o, t, w.Roots(t), r)
         case Table(_, us) =>
           if r.Some? then r.value in us && Fits(w, c, r.value, t)
           else forall u :: u in us ==> !Fits(w, c, u, t)
  }

  /** The userdata found is weakened, or becomes one of the pushed class. */
  function Adjust(w: World, c: Cache, u: nat, o: nat, t: nat, isConst: bool): Cache
    requires w.Ok() && t in w.bases && u in c.uds && c.uds[u].typ in w.bases
  {
    var isConst' := c.uds[u].isConst && isConst;
    if Narrower(w, c.uds[u].typ, t) then c.(uds := c.uds[u := c.uds[u].(isConst := isConst')])
    else Reset(w, c, u, o, t, isConst')
  }

  datatype Owner = NoChange | OwnedByCpp | OwnedByLua

  function SetOwner(c: Cache, u: nat, owner: Owner): Cache {
    if owner == NoChange || u !in c.uds then c else c.(uds := c.uds[u := c.uds[u].(gc := owner == OwnedByLua)])
  }

  /** Pushing an object: the userdata found is adjusted, or one is added. */
  function Push(w: World, c: Cache, o: nat, t: nat, isConst: bool, owner: Owner, r: Option<nat>): Cache
    requires w.Ok() && t in w.bases && Found(w, c, o, t, r)
  {
    FoundFits(w, c, o, t, r);
    if r.None? then AddPtr(w, c, o, t, isConst, owner == OwnedByLua)
    else SetOwner(Adjust(w, c, r.value, o, t, isConst), r.value, owner)
  }

  lemma {:induction false} RootsFindWider(w: World, c: Cache, o: nat, t: nat, roots: seq<nat>, r: Option<nat>)
    requires w.Ok() && t in w.bases && FoundAtRoots(w, c, o, t, roots, r)
    ensures r.Some? ==> exists b :: b in roots && r.value in WiderAt(w, c, w.at(o, b), t) && w.at(o, b) != w.at(o, t)
    ensures r.None? ==> forall b :: b in roots && w.at(o, b) != w.at(o, t) ==> WiderAt(w, c, w.at(o, b), t) == {}
  {
    if roots != [] {
      var p := w.at(o, roots[0]);
      assert roots[0] in roots;
      if p == w.at(o, t) || WiderAt(w, c, p, t) == {} {
        RootsFindWider(w, c, o, t, roots[1..], r);
        assert forall b :: b in roots ==> b == roots[0] || b in roots[1..];
      }
    }
  }

  /** The userdata is at an address that a push of the object looks at. */
  ghost predicate InSight(w: World, c: Cache, o: nat, t: nat, u: nat)
    requires w.Ok() && t in w.bases
  {
    u in Holds(c, w.at(o, t)) || exists b :: b in w.Roots(t) && u in Holds(c, w.at(o, b))
  }

  /** The userdata found is alive, its class is related to the pushed one, and it sits where the push looks. */
  lemma FoundFits(w: World, c: Cache, o: nat, t: nat, r: Option<nat>)
    requires w.Ok() && t in w.bases && Found(w, c, o, t, r)
    ensures r.Some? ==> Fits(w, c, r.value, t) && InSight(w, c, o, t, r.value)
    ensures r.Some? && r.value !in Holds(c, w.at(o, t)) ==>
              exists b :: b in w.Roots(t) && r.value in Holds(c, w.at(o, b)) && Wider(w, c.uds[r.value].typ, t)
  {
    if FoundAtRoots(w, c, o, t, w.Roots(t), r) {
      RootsFindWider(w, c, o, t, w.Roots(t), r);
      if r.Some? {
        assert Wider(w, c.uds[r.value].typ, t);
        AllBasesIsProperBases(w.bases, w.rank, t, c.uds[r.value].typ);
      }
    }
  }

  // ---- what a push keeps ----

  /**
    Every userdata is registered at the addresses of all its bases, and one of a root class at its own.  One of another
    class can lack its own address: `reset_metatable` registers the bases only.
   */
  ghost predicate Registered(w: World, c: Cache)
    requires w.Ok()
  {
    forall u {:trigger RegisteredUd(w, c, u)} :: u in c.uds ==> RegisteredUd(w, c, u)
  }

  ghost predicate RegisteredUd(w: World, c: Cache, u: nat)
    requires w.Ok() && u in c.uds
  {
    && c.uds[u].typ in w.bases
    && (forall b :: b in w.All(c.uds[u].typ) ==> u in Holds(c, w.at(c.uds[u].obj, b)))
    && (w.bases[c.uds[u].typ] == [] ==> u in Holds(c, w.at(c.uds[u].obj, c.uds[u].typ)))
  }

  ghost predicate Valid(w: World, c: Cache) {
    w.Ok() && Consistent(w, c) && Registered(w, c)
  }

  /**
    An upgrade of the userdata found leaves it nowhere but at addresses of the object it then stands for.  The search
    compares classes and not objects, so this can fail: the userdata may be that of a member whose class is a base of
    the pushed one, or of an object deleted before another came to lie at its address.
   */
  ghost predicate Contained(w: World, c: Cache, o: nat, t: nat, r: Option<nat>)
    requires w.Ok() && t in w.bases
  {
    r.Some? && r.value in c.uds && c.uds[r.value].typ in w.bases && !Narrower(w, c.uds[r.value].typ, t) ==>
      forall p :: r.value in Holds(c, p) ==> p in w.Cover(o, t)
  }

  lemma AddEachRegisters(w: World, c: Cache, u: nat, o: nat, t: nat)
    requires w.Ok() && Consistent(w, c) && u in c.uds && c.uds[u].obj == o && c.uds[u].typ == t && t in w.bases
    requires w.bases[t] == [] ==> u in Holds(c, w.at(o, t))
    requires forall v :: v in c.uds && v != u ==> RegisteredUd(w, c, v)
    ensures Valid(w, AddEach(w, c, o, w.All(t), u))
  {
    var c' := AddEach(w, c, o, w.All(t), u);
    AddEachKeeps(w, c, o, w.All(t), u);
    forall v | v in c'.uds ensures RegisteredUd(w, c', v) {
      forall p
        ensures Holds(c, p) <= Holds(c', p) && ((exists b :: b in w.All(t) && w.at(o, b) == p) ==> u in Holds(c', p))
      {
        AddEachInserts(w, c, o, w.All(t), u, p);
      }
    }
  }

  lemma NewUdKeepsConsistent(w: World, c: Cache, ud: Ud)
    requires w.Ok() && Consistent(w, c) && ud.typ in w.bases
    ensures Consistent(w, c.(uds := c.uds[c.next := ud], next := c.next + 1))
  {
    var c1 := c.(uds := c.uds[c.next := ud], next := c.next + 1);
    forall p | p in c1.slots ensures Tended(w, c1, p) { assert Tended(w, c, p); }
    forall p, v {:trigger v in Holds(c1, p)} | v in Holds(c1, p) ensures v in c1.uds && w.Covers(c1.uds[v], p) {
      assert v in Holds(c, p);
    }
  }

  lemma NewUdIsAlone(w: World, c: Cache, ud: Ud)
    requires Valid(w, c) && ud.typ in w.bases
    ensures var c1 := c.(uds := c.uds[c.next := ud], next := c.next + 1);
            forall v :: v in c1.uds && v != c.next ==> RegisteredUd(w, c1, v)
  {
    var c1 := c.(uds := c.uds[c.next := ud], next := c.next + 1);
    forall v | v in c1.uds && v != c.next ensures RegisteredUd(w, c1, v) {
      assert RegisteredUd(w, c, v);
    }
  }

  /** An add takes no userdata off the addresses it must be registered at. */
  lemma AddKeepsRegistered(w: World, c: Cache, p: nat, u: nat, v: nat)
    requires w.Ok() && v in c.uds && RegisteredUd(w, c, v)
    ensures v in AddIfRequired(c, p, u).uds && RegisteredUd(w, AddIfRequired(c, p, u), v)
  {
    var c' := AddIfRequired(c, p, u);
    assert c'.uds[v].obj == c.uds[v].obj && c'.uds[v].typ == c.uds[v].typ;
    forall q ensures Holds(c, q) <= Holds(c', q) { AddInsertsOne(c, p, u, q); }
  }

  lemma AddPtrKeepsValid(w: World, c: Cache, o: nat, t: nat, isConst: bool, gc: bool)
    requires Valid(w, c) && t in w.bases
    ensures Valid(w, AddPtr(w, c, o, t, isConst, gc))
  {
    var u, p := c.next, w.at(o, t);
    var c1 := c.(uds := c.uds[u := Ud(o, t, isConst, gc, false)], next := c.next + 1);
    NewUdKeepsConsistent(w, c, c1.uds[u]);
    NewUdIsAlone(w, c, c1.uds[u]);
    AddAtOwnAddress(w, c1, o, t, u);
    AddEachRegisters(w, AddIfRequired(c1, p, u), u, o, t);
  }

  /** The first address of a new userdata is the object's own. */
  lemma AddAtOwnAddress(w: World, c: Cache, o: nat, t: nat, u: nat)
    requires w.Ok() && Consistent(w, c) && t in w.bases && u in c.uds && c.uds[u].obj == o && c.uds[u].typ == t
    requires forall v :: v in c.uds && v != u ==> RegisteredUd(w, c, v)
    ensures var c' := AddIfRequired(c, w.at(o, t), u);
            && Consistent(w, c') && u in c'.uds && c'.uds[u].obj == o && c'.uds[u].typ == t
            && u in Holds(c', w.at(o, t)) && forall v :: v in c'.uds && v != u ==> RegisteredUd(w, c', v)
  {
    var p := w.at(o, t);
    AddKeepsConsistent(w, c, p, u);
    AddKeepsFlags(w, c, p, u);
    AddInsertsOne(c, p, u, p);
    forall v | v in c.uds && v != u ensures RegisteredUd(w, AddIfRequired(c, p, u), v) {
      AddKeepsRegistered(w, c, p, u, v);
    }
  }

  /** Becoming one of a derived class, the userdata stays within the addresses of its object. */
  lemma CoverGrows(w: World, o: nat, s: nat, t: nat)
    requires w.Ok() && s in w.bases && t in w.bases && Wider(w, s, t)
    ensures w.Cover(o, s) <= w.Cover(o, t) && w.bases[t] != []
  {
    AllBasesIsProperBases(w.bases, w.rank, t, s);
    forall b | b in w.All(s) ensures b in w.All(t) {
      AllBasesTrans(w.bases, w.rank, t, s, b);
    }
  }

  /** The userdata under its new class and object, before its bases are registered. */
  lemma RetypedIsConsistent(w: World, c: Cache, u: nat, o: nat, t: nat, isConst: bool)
    requires Valid(w, c) && t in w.bases && u in c.uds
    requires forall p :: u in Holds(c, p) ==> p in w.Cover(o, t)
    ensures Consistent(w, c.(uds := c.uds[u := c.uds[u].(obj := o, typ := t, isConst := isConst)]))
  {
    var c1 := c.(uds := c.uds[u := c.uds[u].(obj := o, typ := t, isConst := isConst)]);
    forall p | p in c1.slots ensures Tended(w, c1, p) { assert Tended(w, c, p); }
    forall p, v {:trigger v in Holds(c1, p)} | v in Holds(c1, p) ensures v in c1.uds && w.Covers(c1.uds[v], p) {
      assert v in Holds(c, p);
    }
  }

  /** A reset keeps the cache valid exactly when the userdata is registered at addresses of the new object only. */
  lemma ResetKeepsValidIff(w: World, c: Cache, u: nat, o: nat, t: nat, isConst: bool)
    requires Valid(w, c) && t in w.bases && u in c.uds && c.uds[u].typ in w.bases && Wider(w, c.uds[u].typ, t)
    ensures Valid(w, Reset(w, c, u, o, t, isConst)) <==> forall p :: u in Holds(c, p) ==> p in w.Cover(o, t)
  {
    var c1 := c.(uds := c.uds[u := c.uds[u].(obj := o, typ := t, isConst := isConst)]);
    CoverGrows(w, o, c.uds[u].typ, t);
    if forall p :: u in Holds(c, p) ==> p in w.Cover(o, t) {
      RetypedIsConsistent(w, c, u, o, t, isConst);
      forall v | v in c1.uds && v != u ensures RegisteredUd(w, c1, v) {
        assert RegisteredUd(w, c, v);
      }
      AddEachRegisters(w, c1, u, o, t);
    } else {
      var p :| u in Holds(c, p) && p !in w.Cover(o, t);
      ResetKeepsPlace(w, c, u, o, t, isConst, p);
    }
  }

  /** A reset takes the userdata off no address. */
  lemma ResetKeepsPlace(w: World, c: Cache, u: nat, o: nat, t: nat, isConst: bool, p: nat)
    requires w.Ok() && t in w.bases && u in c.uds && u in Holds(c, p)
    ensures var c' := Reset(w, c, u, o, t, isConst);
            u in Holds(c', p) && u in c'.uds && c'.uds[u].obj == o && c'.uds[u].typ == t
  {
    var c1 := c.(uds := c.uds[u := c.uds[u].(obj := o, typ := t, isConst := isConst)]);
    AddEachInserts(w, c1, o, w.All(t), u, p);
    AddEachFlags(w, c1, o, w.All(t), u);
  }

  /** A change of a userdata's flags other than the collision flag. */
  lemma FlagsKeepValid(w: World, c: Cache, u: nat, isConst: bool, gc: bool)
    requires Valid(w, c) && u in c.uds
    ensures Valid(w, c.(uds := c.uds[u := c.uds[u].(isConst := isConst, gc := gc)]))
  {
    var c1 := c.(uds := c.uds[u := c.uds[u].(isConst := isConst, gc := gc)]);
    forall p | p in c1.slots ensures Tended(w, c1, p) { assert Tended(w, c, p); }
    forall p, v {:trigger v in Holds(c1, p)} | v in Holds(c1, p) ensures v in c1.uds && w.Covers(c1.uds[v], p) {
      assert v in Holds(c, p);
    }
    forall v | v in c1.uds ensures RegisteredUd(w, c1, v) {
      assert RegisteredUd(w, c, v);
    }
  }

  /** A userdata of the object itself is contained: upgrades add to the addresses of the object. */
  lemma OwnIsContained(w: World, c: Cache, o: nat, t: nat, r: Option<nat>)
    requires Valid(w, c) && t in w.bases && Found(w, c, o, t, r)
    requires r.Some? && r.value in c.uds ==> c.uds[r.value].obj == o
    ensures Contained(w, c, o, t, r)
  {
    FoundFits(w, c, o, t, r);
    if r.Some? && !Narrower(w, c.uds[r.value].typ, t) {
      CoverGrows(w, o, c.uds[r.value].typ, t);
    }
  }

  /** A push keeps the cache valid exactly when the upgrade it makes, if any, is contained. */
  lemma PushKeepsValidIff(w: World, c: Cache, o: nat, t: nat, isConst: bool, owner: Owner, r: Option<nat>)
    requires Valid(w, c) && t in w.bases && Found(w, c, o, t, r)
    ensures Valid(w, Push(w, c, o, t, isConst, owner, r)) <==> Contained(w, c, o, t, r)
  {
    FoundFits(w, c, o, t, r);
    if r == None {
      AddPtrKeepsValid(w, c, o, t, isConst, owner == OwnedByLua);
    } else {
      var c' := Adjust(w, c, r.value, o, t, isConst);
      AdjustKeepsValidIff(w, c, o, t, isConst, r.value);
      if owner != NoChange {
        OwnerKeepsValidIff(w, c', r.value, owner);
      }
    }
  }

  lemma AdjustKeepsValidIff(w: World, c: Cache, o: nat, t: nat, isConst: bool, u: nat)
    requires Valid(w, c) && t in w.bases && Fits(w, c, u, t)
    ensures Valid(w, Adjust(w, c, u, o, t, isConst)) <==> Contained(w, c, o, t, Some(u))
  {
    var isConst' := c.uds[u].isConst && isConst;
    if Narrower(w, c.uds[u].typ, t) {
      FlagsKeepValid(w, c, u, isConst', c.uds[u].gc);
    } else {
      ResetKeepsValidIff(w, c, u, o, t, isConst');
    }
  }

  lemma OwnerKeepsValid(w: World, c: Cache, u: nat, owner: Owner)
    requires Valid(w, c)
    ensures Valid(w, SetOwner(c, u, owner))
  {
    if owner != NoChange && u in c.uds {
      FlagsKeepValid(w, c, u, c.uds[u].isConst, owner == OwnedByLua);
    }
  }

  lemma OwnerRestored(c: Cache, u: nat, owner: Owner)
    ensures exists owner' :: SetOwner(SetOwner(c, u, owner), u, owner') == c
  {
    if owner == NoChange || u !in c.uds {
      assert SetOwner(SetOwner(c, u, owner), u, NoChange) == c;
    } else {
      var owner' := if c.uds[u].gc then OwnedByLua else OwnedByCpp;
      var back := SetOwner(SetOwner(c, u, owner), u, owner');
      assert back.uds == c.uds;
      assert back == c;
    }
  }

  /** Ownership plays no part in it. */
  lemma OwnerKeepsValidIff(w: World, c: Cache, u: nat, owner: Owner)
    requires w.Ok()
    ensures Valid(w, SetOwner(c, u, owner)) <==> Valid(w, c)
  {
    OwnerRestored(c, u, owner);
    var owner' :| SetOwner(SetOwner(c, u, owner), u, owner') == c;
    if Valid(w, c) {
      OwnerKeepsValid(w, c, u, owner);
    } else if Valid(w, SetOwner(c, u, owner)) {
      OwnerKeepsValid(w, SetOwner(c, u, owner), u, owner');
    }
  }

  // ---- searching the roots only is complete ----

  /**
    A userdata of the object cached under a base or a derived class of the pushed one is always found, by the
    pushed address or by a root, as long as no collision table sits at the pushed address.
   */
  lemma FindIsComplete(w: World, c: Cache, o: nat, t: nat, r: Option<nat>, u: nat)
    requires w.Ok() && Registered(w, c) && t in w.bases && Found(w, c, o, t, r)
    requires u in c.uds && c.uds[u].obj == o && c.uds[u].typ != t && Fits(w, c, u, t)
    requires w.at(o, t) in c.slots ==> c.slots[w.at(o, t)].Single?
    ensures r.Some? && Fits(w, c, r.value, t)
  {
    assert RegisteredUd(w, c, u);
    FoundFits(w, c, o, t, r);
    if t !in w.All(c.uds[u].typ) {
      var root := RootOf(w, c.uds[u].typ, t);
      assert u in Holds(c, w.at(o, root));
      if w.at(o, root) != w.at(o, t) {
        assert u in WiderAt(w, c, w.at(o, root), t);
        if FoundAtRoots(w, c, o, t, w.Roots(t), r) {
          RootsFindWider(w, c, o, t, w.Roots(t), r);
        }
      }
    }
  }

  /** A root of `s`, or `s` itself if it is one, is a root of every class derived from `s`. */
  lemma RootOf(w: World, s: nat, t: nat) returns (root: nat)
    requires w.Ok() && t in w.bases && s in w.bases && Wider(w, s, t)
    ensures root in w.Roots(t)
    ensures root in w.All(s) || (root == s && w.bases[s] == [])
  {
    if w.bases[s] == [] {
      root := s;
    } else {
      root := HasRoot(w.bases, w.rank, s);
    }
    RootsInherited(w.bases, w.rank, t, s, root);
  }

  /** For one cached under the pushed class itself the search succeeds exactly when its own address is registered. */
  lemma SameClassFoundIff(w: World, c: Cache, o: nat, t: nat, r: Option<nat>, u: nat)
    requires w.Ok() && t in w.bases && Found(w, c, o, t, r)
    requires u in c.uds && c.uds[u].obj == o && c.uds[u].typ == t
    requires forall v :: v in c.uds && v != u && Fits(w, c, v, t) ==> !InSight(w, c, o, t, v)
    ensures r.Some? <==> u in Holds(c, w.at(o, t))
  {
    FoundFits(w, c, o, t, r);
    AllBasesIsProperBases(w.bases, w.rank, t, t);
  }

  /** An upgrade leaves the userdata at the pushed address exactly when it was there or a base lies there. */
  lemma UpgradeRegistersIff(w: World, c: Cache, o: nat, t: nat, isConst: bool, owner: Owner, u: nat)
    requires w.Ok() && t in w.bases && Found(w, c, o, t, Some(u))
    requires u in c.uds && c.uds[u].typ in w.bases && !Narrower(w, c.uds[u].typ, t)
    ensures var c' := Push(w, c, o, t, isConst, owner, Some(u));
            u in Holds(c', w.at(o, t)) <==>
            u in Holds(c, w.at(o, t)) || exists b :: b in w.All(t) && w.at(o, b) == w.at(o, t)
  {
    var c1 := c.(uds := c.uds[u := c.uds[u].(obj := o, typ := t, isConst := c.uds[u].isConst && isConst)]);
    AddEachInserts(w, c1, o, w.All(t), u, w.at(o, t));
  }

  /**
    An upgrade through a root can therefore lose the object: a class 1 with its one base, class 0, at another
    address.  Pushed as its base and then twice as itself, the object ends up with two userdata.
   */
  lemma UpgradeLosesObject(w: World) returns (c1: Cache, c2: Cache, c3: Cache)
    requires w.bases == map[0 := [], 1 := [0]] && w.rank == map[0 := 0, 1 := 1] && w.at(7, 0) == 8 && w.at(7, 1) == 0
    ensures Found(w, EMPTY, 7, 0, None) && c1 == Push(w, EMPTY, 7, 0, false, NoChange, None)
    ensures Found(w, c1, 7, 1, Some(0)) && c2 == Push(w, c1, 7, 1, false, NoChange, Some(0))
    ensures Found(w, c2, 7, 1, None) && c3 == Push(w, c2, 7, 1, false, NoChange, None)
    ensures 0 in c3.uds && 1 in c3.uds && c3.uds[0].obj == c3.uds[1].obj == 7 && c3.uds[0].typ == c3.uds[1].typ == 1
  {
    var ud0 := Ud(7, 0, false, false, false);
    var leaf := 0;
    assert w.All(leaf) == w.bases[leaf] + BasesOfEach(w.bases, w.rank, w.bases[leaf], w.rank[leaf]) == [];
    assert w.All(0) == [] && w.Roots(0) == [];
    assert BasesOfEach(w.bases, w.rank, [0], 1) == [] by {
      assert [0][1..] == [];
    }
    assert w.All(1) == [0];
    assert Rootless(w.bases, [0]) == [0] by {
      assert [0][1..] == [];
    }
    c1 := Push(w, EMPTY, 7, 0, false, NoChange, None);
    assert c1 == Cache(map[0 := ud0], map[], map[8 := Single(0)], {}, 1);
    assert WiderAt(w, c1, 8, 1) == {0};
    assert [0][1..] == [];
    c2 := Push(w, c1, 7, 1, false, NoChange, Some(0));
    assert c2 == Cache(map[0 := ud0.(typ := 1)], map[], map[8 := Single(0)], {}, 1);
    assert WiderAt(w, c2, 8, 1) == {};
    c3 := Push(w, c2, 7, 1, false, NoChange, None);
  }
}
