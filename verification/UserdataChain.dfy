/**
  Pushes of one object under the classes of one inheritance chain: exactly when one userdata stands for it.
 */
module UserdataChain {
  import opened Wrappers

  import opened ClassGraph
  import opened TypeLists
  import opened UserdataModel
  import opened UserdataCollector
  import opened UserdataAliasing
  import opened UserdataRegistration

  datatype Pushed = Pushed(typ: nat, isConst: bool)

  /** Of the first `n` pushes, `t` is the most derived class, and `isConst` says that none was of a non-const one. */
  ghost predicate Summary(w: World, ps: seq<Pushed>, n: nat, t: nat, isConst: bool)
    requires w.Ok() && n <= |ps| && t in w.bases
  {
    && (exists i :: 0 <= i < n && ps[i].typ == t)
    && (forall i :: 0 <= i < n ==> Narrower(w, t, ps[i].typ))
    && (isConst <==> forall i :: 0 <= i < n ==> ps[i].isConst)
  }

  /** Classes any two of which are related. */
  ghost predicate Chain(w: World, ps: seq<Pushed>)
    requires w.Ok()
  {
    && (forall i :: 0 <= i < |ps| ==> ps[i].typ in w.bases)
    && forall i, j :: 0 <= i < |ps| && 0 <= j < |ps| ==>
         Narrower(w, ps[i].typ, ps[j].typ) || Wider(w, ps[i].typ, ps[j].typ)
  }

  /** `cs` are the states of a run that pushes the object as each of `ps` in turn. */
  ghost predicate PushRun(w: World, o: nat, ps: seq<Pushed>, cs: seq<Cache>)
    requires w.Ok() && Chain(w, ps)
  {
    && |cs| == |ps| + 1
    && forall i :: 0 <= i < |ps| ==> PushStep(w, o, ps[i], cs[i], cs[i + 1])
  }

  ghost predicate PushStep(w: World, o: nat, p: Pushed, c: Cache, c': Cache)
    requires w.Ok() && p.typ in w.bases
  {
    exists r, owner :: Found(w, c, o, p.typ, r) && c' == Push(w, c, o, p.typ, p.isConst, owner, r)
  }

  // ---- what the run relies on ----

  /** What holds of the cache at every point of every run. */
  ghost predicate Sound(w: World, c: Cache) {
    w.Ok() && Sane(w, c) && Registered(w, c)
  }

  lemma EveryRunIsSound(w: World, es: seq<Event>, cs: seq<Cache>, n: nat)
    requires w.Ok() && IsRun(w, es, cs) && n <= |es|
    ensures Sound(w, cs[n])
  {
    FlagsInEveryRun(w, es, cs, n);
    RegisteredInEveryRun(w, es, cs, n);
  }

  lemma PushKeepsSound(w: World, c: Cache, o: nat, p: Pushed, owner: Owner, r: Option<nat>)
    requires Sound(w, c) && p.typ in w.bases && Found(w, c, o, p.typ, r)
    ensures Sound(w, Push(w, c, o, p.typ, p.isConst, owner, r))
  {
    PushKeepsSane(w, c, o, p.typ, p.isConst, owner, r);
    PushKeepsRegistered(w, c, o, p.typ, p.isConst, owner, r);
  }

  /** One of the bases of the class lies at its address, so that an upgrade to it registers that address too. */
  ghost predicate OnABase(w: World, o: nat, t: nat)
    requires w.Ok() && t in w.bases
  {
    exists b :: b in w.All(t) && w.at(o, b) == w.at(o, t)
  }

  /** The userdata at the address have classes unrelated to those pushed. */
  ghost predicate Unrelated(w: World, c: Cache, p: nat, ps: seq<Pushed>)
    requires w.Ok() && Chain(w, ps)
  {
    forall v, i :: v in Holds(c, p) && 0 <= i < |ps| ==> !Fits(w, c, v, ps[i].typ)
  }

  predicate IsTable(c: Cache, p: nat) {
    p in c.slots && c.slots[p].Table?
  }

  /** The object's addresses are shared with unrelated userdata only. */
  ghost predicate Apart(w: World, c: Cache, o: nat, ps: seq<Pushed>)
    requires w.Ok() && Chain(w, ps)
  {
    forall i, p {:trigger p in w.Cover(o, ps[i].typ)} ::
      0 <= i < |ps| && p in w.Cover(o, ps[i].typ) ==> Unrelated(w, c, p, ps)
  }

  // ---- the pushes that upgrade ----

  /** The addresses of the bases, and the object's own where it is registered too. */
  ghost function Places(w: World, o: nat, t: nat, own: bool): set<nat>
    requires w.Ok() && t in w.bases
  {
    (if own then {w.at(o, t)} else {}) + set b | b in w.All(t) :: w.at(o, b)
  }

  /** The class is derived from all those pushed before. */
  ghost predicate IsUpgrade(w: World, ps: seq<Pushed>, n: nat)
    requires w.Ok() && Chain(w, ps)
  {
    0 < n < |ps| && forall i :: 0 <= i < n ==> Wider(w, ps[i].typ, ps[n].typ)
  }

  /** The last of the first `n` pushes that upgraded the userdata, or else the one that added it. */
  ghost function Last(w: World, ps: seq<Pushed>, n: nat): (m: nat)
    requires w.Ok() && Chain(w, ps) && 0 < n <= |ps|
    ensures m < n
    decreases n
  {
    if n == 1 then 0 else if IsUpgrade(w, ps, n - 1) then n - 1 else Last(w, ps, n - 1)
  }

  /** After `n` pushes the userdata is not registered at its own address: its last upgrade had no base there. */
  ghost predicate Bare(w: World, o: nat, ps: seq<Pushed>, n: nat)
    requires w.Ok() && Chain(w, ps) && 0 < n <= |ps|
  {
    Last(w, ps, n) > 0 && !OnABase(w, o, ps[Last(w, ps, n)].typ)
  }

  /**
    Push `n` cannot find the userdata: it looks where the userdata is not registered, and either for the class that the
    userdata has or in a collision table, from which the search does not go on to the roots.
   */
  ghost predicate Missed(w: World, o: nat, c0: Cache, ps: seq<Pushed>, n: nat)
    requires w.Ok() && Chain(w, ps) && 0 < n < |ps|
  {
    var t := ps[Last(w, ps, n)].typ;
    && w.at(o, ps[n].typ) !in Places(w, o, t, !Bare(w, o, ps, n))
    && (ps[n].typ == t || IsTable(c0, w.at(o, ps[n].typ)))
  }

  /** A class more derived than `t` is more derived than whatever `t` is at or below. */
  lemma NarrowerTrans(w: World, s: nat, t: nat, x: nat)
    requires w.Ok() && s in w.bases && t in w.bases && Narrower(w, s, t) && Narrower(w, t, x)
    ensures Narrower(w, s, x)
  {
    if s != t && t != x {
      AllBasesTrans(w.bases, w.rank, s, t, x);
    }
  }

  /** A push upgrades exactly when its class is not one that the userdata already has. */
  lemma UpgradeIff(w: World, ps: seq<Pushed>, n: nat, t: nat, isConst: bool)
    requires w.Ok() && Chain(w, ps) && 0 < n < |ps| && t in w.bases && Summary(w, ps, n, t, isConst)
    ensures IsUpgrade(w, ps, n) <==> !Narrower(w, t, ps[n].typ)
  {
    var j :| 0 <= j < n && ps[j].typ == t;
    if Narrower(w, t, ps[n].typ) {
      AllBasesIsProperBases(w.bases, w.rank, ps[n].typ, t);
      AllBasesIsProperBases(w.bases, w.rank, t, ps[n].typ);
    } else {
      forall i | 0 <= i < n ensures Wider(w, ps[i].typ, ps[n].typ) {
        NarrowerTrans(w, ps[n].typ, t, ps[i].typ);
        AllBasesIsProperBases(w.bases, w.rank, t, ps[n].typ);
      }
    }
  }

  lemma SummaryStep(w: World, ps: seq<Pushed>, n: nat, t: nat, isConst: bool)
    requires w.Ok() && Chain(w, ps) && 0 < n < |ps| && t in w.bases && Summary(w, ps, n, t, isConst)
    ensures Summary(w, ps, n + 1, if Narrower(w, t, ps[n].typ) then t else ps[n].typ, isConst && ps[n].isConst)
  {
    var i :| 0 <= i < n && ps[i].typ == t;
    var t' := if Narrower(w, t, ps[n].typ) then t else ps[n].typ;
    forall j | 0 <= j < n + 1 ensures Narrower(w, t', ps[j].typ) {
      if j < n {
        assert Narrower(w, ps[i].typ, ps[n].typ) || Wider(w, ps[i].typ, ps[n].typ);
        NarrowerTrans(w, t', t, ps[j].typ);
      }
    }
    if isConst && !ps[n].isConst {
      assert exists j :: 0 <= j < n + 1 && !ps[j].isConst;
    }
  }

  // ---- the one userdata ----

  function SlotAt(c: Cache, p: nat): Option<Slot> {
    if p in c.slots then Some(c.slots[p]) else None
  }

  /**
    `c` is `c0` with one userdata more, that of the object as a `t`: it is registered at these addresses, the other
    addresses are as they were, and so are the other userdata but for the collision flag.
   */
  ghost predicate OneMore(o: nat, c0: Cache, c: Cache, u: nat, t: nat, places: set<nat>) {
    && u !in c0.uds && c.uds.Keys == c0.uds.Keys + {u} && c.uds[u].obj == o && c.uds[u].typ == t
    && (forall v :: v in c0.uds ==> SameButFlag(c0.uds[v], c.uds[v]))
    && (forall p :: PlaceAt(c0, c, u, places, p))
  }

  ghost predicate PlaceAt(c0: Cache, c: Cache, u: nat, places: set<nat>, p: nat) {
    if p in places then Holds(c, p) == Holds(c0, p) + {u} else SlotAt(c, p) == SlotAt(c0, p)
  }

  lemma {:induction false} AddEachElsewhere(w: World, c: Cache, o: nat, list: seq<nat>, u: nat, p: nat)
    requires forall b :: b in list ==> w.at(o, b) != p
    ensures SlotAt(AddEach(w, c, o, list, u), p) == SlotAt(c, p)
    decreases |list|
  {
    if list != [] {
      assert list[0] in list;
      AddEachElsewhere(w, AddIfRequired(c, w.at(o, list[0]), u), o, list[1..], u, p);
    }
  }

  /** Registering the userdata at the bases of a class. */
  lemma BasesPlaced(w: World, o: nat, c: Cache, u: nat, t: nat, p: nat)
    requires w.Ok() && t in w.bases
    ensures PlaceAt(c, AddEach(w, c, o, w.All(t), u), u, Places(w, o, t, false), p)
  {
    if exists b :: b in w.All(t) && w.at(o, b) == p {
      AddEachInserts(w, c, o, w.All(t), u, p);
    } else {
      AddEachElsewhere(w, c, o, w.All(t), u, p);
    }
  }

  /** A new userdata. */
  lemma AddedOne(w: World, c: Cache, o: nat, t: nat, isConst: bool, gc: bool)
    requires Sound(w, c) && t in w.bases
    ensures var c' := AddPtr(w, c, o, t, isConst, gc);
            OneMore(o, c, c', c.next, t, Places(w, o, t, true)) && c'.uds[c.next].isConst == isConst
  {
    NewUdKeepsFlags(w, c, o, t, isConst, gc);
    var c' := AddPtr(w, c, o, t, isConst, gc);
    forall p ensures PlaceAt(c, c', c.next, Places(w, o, t, true), p) {
      AddedAt(w, c, o, t, isConst, gc, p);
    }
  }

  lemma AddedAt(w: World, c: Cache, o: nat, t: nat, isConst: bool, gc: bool, p: nat)
    requires w.Ok() && t in w.bases
    ensures PlaceAt(c, AddPtr(w, c, o, t, isConst, gc), c.next, Places(w, o, t, true), p)
  {
    var c1 := c.(uds := c.uds[c.next := Ud(o, t, isConst, gc, false)], next := c.next + 1);
    AddInsertsOne(c1, w.at(o, t), c.next, p);
    BasesPlaced(w, o, AddIfRequired(c1, w.at(o, t), c.next), c.next, t, p);
  }

  /** An upgrade registers the bases, which include all places of a base. */
  lemma UpgradedOne(w: World, c0: Cache, c: Cache, o: nat, u: nat, s: nat, own: bool, t: nat, isConst: bool)
    requires w.Ok() && s in w.bases && t in w.bases && Wider(w, s, t) && OneMore(o, c0, c, u, s, Places(w, o, s, own))
    ensures var c' := Reset(w, c, u, o, t, isConst);
            OneMore(o, c0, c', u, t, Places(w, o, t, false)) && c'.uds[u].isConst == isConst
  {
    var c1 := c.(uds := c.uds[u := c.uds[u].(obj := o, typ := t, isConst := isConst)]);
    AddEachFlags(w, c1, o, w.All(t), u);
    PlacesGrow(w, o, s, own, t);
    forall p ensures PlaceAt(c0, Reset(w, c, u, o, t, isConst), u, Places(w, o, t, false), p) {
      assert PlaceAt(c0, c, u, Places(w, o, s, own), p);
      BasesPlaced(w, o, c1, u, t, p);
    }
  }

  lemma PlacesGrow(w: World, o: nat, s: nat, own: bool, t: nat)
    requires w.Ok() && s in w.bases && t in w.bases && Wider(w, s, t)
    ensures Places(w, o, s, own) <= Places(w, o, t, false)
  {
    forall b | b in w.All(s) ensures b in w.All(t) {
      AllBasesTrans(w.bases, w.rank, t, s, b);
    }
  }

  /** With a base at its address a class has the same places either way. */
  lemma OnABasePlaces(w: World, o: nat, t: nat)
    requires w.Ok() && t in w.bases
    ensures OnABase(w, o, t) <==> Places(w, o, t, true) == Places(w, o, t, false)
    ensures OnABase(w, o, t) <==> w.at(o, t) in Places(w, o, t, false)
    ensures Places(w, o, t, true) == w.Cover(o, t)
  {
    if OnABase(w, o, t) {
      assert Places(w, o, t, true) == Places(w, o, t, false);
    } else {
      assert w.at(o, t) in Places(w, o, t, true);
    }
  }

  /** A push that finds the one userdata. */
  lemma PushTakenIn(w: World, c0: Cache, c: Cache, o: nat, u: nat, own: bool, p: Pushed, owner: Owner)
    requires w.Ok() && p.typ in w.bases && u in c.uds && c.uds[u].typ in w.bases && Fits(w, c, u, p.typ)
    requires OneMore(o, c0, c, u, c.uds[u].typ, Places(w, o, c.uds[u].typ, own))
    ensures var s := c.uds[u].typ;
            var c' := SetOwner(Adjust(w, c, u, o, p.typ, p.isConst), u, owner);
            && (if Narrower(w, s, p.typ) then OneMore(o, c0, c', u, s, Places(w, o, s, own))
                else OneMore(o, c0, c', u, p.typ, Places(w, o, p.typ, false)))
            && c'.uds[u].isConst == (c.uds[u].isConst && p.isConst)
  {
    var s, isConst := c.uds[u].typ, c.uds[u].isConst && p.isConst;
    var c1 := Adjust(w, c, u, o, p.typ, p.isConst);
    if Narrower(w, s, p.typ) {
      ConstKeepsOne(o, c0, c, u, s, Places(w, o, s, own), isConst);
      OwnerKeepsOne(o, c0, c1, u, s, Places(w, o, s, own), owner);
    } else {
      UpgradedOne(w, c0, c, o, u, s, own, p.typ, isConst);
      OwnerKeepsOne(o, c0, c1, u, p.typ, Places(w, o, p.typ, false), owner);
    }
  }

  lemma ConstKeepsOne(o: nat, c0: Cache, c: Cache, u: nat, t: nat, places: set<nat>, isConst: bool)
    requires OneMore(o, c0, c, u, t, places)
    ensures OneMore(o, c0, c.(uds := c.uds[u := c.uds[u].(isConst := isConst)]), u, t, places)
  {
    var c' := c.(uds := c.uds[u := c.uds[u].(isConst := isConst)]);
    forall p ensures PlaceAt(c0, c', u, places, p) {
      assert PlaceAt(c0, c, u, places, p);
    }
  }

  lemma OwnerKeepsOne(o: nat, c0: Cache, c: Cache, u: nat, t: nat, places: set<nat>, owner: Owner)
    requires OneMore(o, c0, c, u, t, places)
    ensures OneMore(o, c0, SetOwner(c, u, owner), u, t, places)
    ensures SetOwner(c, u, owner).uds[u].isConst == c.uds[u].isConst
  {
    forall p ensures PlaceAt(c0, SetOwner(c, u, owner), u, places, p) {
      assert PlaceAt(c0, c, u, places, p);
    }
  }

  /** What a push sees is at an address of the object. */
  lemma SeenIsCovered(w: World, c: Cache, o: nat, t: nat, v: nat) returns (p: nat)
    requires w.Ok() && t in w.bases && InSight(w, c, o, t, v)
    ensures v in Holds(c, p) && p in w.Cover(o, t)
  {
    p := w.at(o, t);
    if v !in Holds(c, p) {
      var b :| b in w.Roots(t) && v in Holds(c, w.at(o, b));
      RootlessHas(w.bases, w.All(t), b);
      p := w.at(o, b);
    }
  }

  lemma UnrelatedStays(w: World, c0: Cache, c: Cache, o: nat, ps: seq<Pushed>, i: nat, u: nat, places: set<nat>,
                       v: nat, p: nat)
    requires Sound(w, c0) && Chain(w, ps) && Unrelated(w, c0, p, ps) && i < |ps|
    requires u in c.uds && OneMore(o, c0, c, u, c.uds[u].typ, places)
    ensures v in Holds(c, p) && v != u ==> !Fits(w, c, v, ps[i].typ)
  {
    assert PlaceAt(c0, c, u, places, p);
    if v in Holds(c0, p) {
      assert v in c0.uds && !Fits(w, c0, v, ps[i].typ);
    }
  }

  /** Whatever the push sees that fits is the one userdata. */
  lemma OnlyItFits(w: World, c0: Cache, c: Cache, o: nat, ps: seq<Pushed>, i: nat, u: nat, places: set<nat>, v: nat)
    requires Sound(w, c0) && Chain(w, ps) && Apart(w, c0, o, ps) && i < |ps|
    requires u in c.uds && OneMore(o, c0, c, u, c.uds[u].typ, places)
    requires InSight(w, c, o, ps[i].typ, v) && Fits(w, c, v, ps[i].typ)
    ensures v == u
  {
    var p := SeenIsCovered(w, c, o, ps[i].typ, v);
    UnrelatedStays(w, c0, c, o, ps, i, u, places, v, p);
  }

  // ---- the run ----

  /** After `n` pushes: one userdata more, which sums them up, at its own address unless the last upgrade was bare. */
  ghost predicate Standing(w: World, o: nat, ps: seq<Pushed>, n: nat, c0: Cache, c: Cache, u: nat)
    requires w.Ok() && Chain(w, ps) && 0 < n <= |ps|
  {
    var t := ps[Last(w, ps, n)].typ;
    && Sound(w, c) && (Valid(w, c0) ==> Valid(w, c)) && u in c.uds && Summary(w, ps, n, t, c.uds[u].isConst)
    && OneMore(o, c0, c, u, t, Places(w, o, t, !Bare(w, o, ps, n)))
  }

  /** Where the userdata is registered for the push to see, the push finds it. */
  lemma HeldIsFound(w: World, c: Cache, o: nat, t: nat, u: nat, r: Option<nat>)
    requires w.Ok() && t in w.bases && Found(w, c, o, t, r) && Fits(w, c, u, t) && u in Holds(c, w.at(o, t))
    ensures r.Some?
  {
  }

  /** A push that is not missed finds the userdata. */
  lemma FindsIt(w: World, o: nat, ps: seq<Pushed>, n: nat, c0: Cache, c: Cache, u: nat, r: Option<nat>)
    requires Sound(w, c0) && Chain(w, ps) && Apart(w, c0, o, ps) && 0 < n < |ps|
    requires Standing(w, o, ps, n, c0, c, u) && !Missed(w, o, c0, ps, n) && Found(w, c, o, ps[n].typ, r)
    ensures r == Some(u)
  {
    var m, t := Last(w, ps, n), ps[n].typ;
    var s, p := ps[m].typ, w.at(o, t);
    var places := Places(w, o, s, !Bare(w, o, ps, n));
    FoundFits(w, c, o, t, r);
    assert Fits(w, c, u, t);
    if r.Some? {
      OnlyItFits(w, c0, c, o, ps, n, u, places, r.value);
    } else {
      assert PlaceAt(c0, c, u, places, p);
      if p in places {
        HeldIsFound(w, c, o, t, u, r);
      } else {
        FindIsComplete(w, c, o, t, r, u);
      }
    }
  }

  lemma NotHeldWhenMissed(w: World, o: nat, ps: seq<Pushed>, n: nat, c0: Cache, c: Cache, u: nat)
    requires Sound(w, c0) && Chain(w, ps) && 0 < n < |ps|
    requires Standing(w, o, ps, n, c0, c, u) && Missed(w, o, c0, ps, n)
    ensures u !in Holds(c, w.at(o, ps[n].typ)) && !Wider(w, ps[n].typ, ps[n].typ)
    ensures ps[n].typ == ps[Last(w, ps, n)].typ || IsTable(c, w.at(o, ps[n].typ))
  {
    var s, p := ps[Last(w, ps, n)].typ, w.at(o, ps[n].typ);
    assert PlaceAt(c0, c, u, Places(w, o, s, !Bare(w, o, ps, n)), p);
    assert SlotAt(c, p) == SlotAt(c0, p) && Holds(c, p) == Holds(c0, p);
    assert u in Holds(c0, p) ==> u in c0.uds;
    AllBasesIsProperBases(w.bases, w.rank, ps[n].typ, ps[n].typ);
  }

  /** A push that is missed finds nothing. */
  lemma MissesIt(w: World, o: nat, ps: seq<Pushed>, n: nat, c0: Cache, c: Cache, u: nat, r: Option<nat>)
    requires Sound(w, c0) && Chain(w, ps) && Apart(w, c0, o, ps) && 0 < n < |ps|
    requires Standing(w, o, ps, n, c0, c, u) && Missed(w, o, c0, ps, n) && Found(w, c, o, ps[n].typ, r)
    ensures r == None
  {
    NotHeldWhenMissed(w, o, ps, n, c0, c, u);
    FoundFits(w, c, o, ps[n].typ, r);
    if r.Some? {
      OnlyItFits(w, c0, c, o, ps, n, u, Places(w, o, ps[Last(w, ps, n)].typ, !Bare(w, o, ps, n)), r.value);
    }
  }

  /** The first push adds the userdata. */
  lemma ChainFirst(w: World, o: nat, ps: seq<Pushed>, c0: Cache, owner: Owner, r: Option<nat>)
    requires Sound(w, c0) && ps != [] && Chain(w, ps) && Apart(w, c0, o, ps) && Found(w, c0, o, ps[0].typ, r)
    ensures Standing(w, o, ps, 1, c0, Push(w, c0, o, ps[0].typ, ps[0].isConst, owner, r), c0.next)
  {
    var p := ps[0];
    NothingFits(w, o, ps, c0, r);
    PushKeepsSound(w, c0, o, p, owner, r);
    if Valid(w, c0) {
      AddPtrKeepsValid(w, c0, o, p.typ, p.isConst, owner == OwnedByLua);
    }
    AddedOne(w, c0, o, p.typ, p.isConst, owner == OwnedByLua);
  }

  lemma NothingFits(w: World, o: nat, ps: seq<Pushed>, c: Cache, r: Option<nat>)
    requires w.Ok() && ps != [] && Chain(w, ps) && Apart(w, c, o, ps) && Found(w, c, o, ps[0].typ, r)
    ensures r == None
  {
    FoundFits(w, c, o, ps[0].typ, r);
    if r.Some? {
      var p := SeenIsCovered(w, c, o, ps[0].typ, r.value);
    }
  }

  /** A push that is not missed is taken in. */
  lemma ChainNext(w: World, o: nat, ps: seq<Pushed>, n: nat, c0: Cache, c: Cache, u: nat, owner: Owner, r: Option<nat>)
    requires Sound(w, c0) && Chain(w, ps) && Apart(w, c0, o, ps) && 0 < n < |ps|
    requires Standing(w, o, ps, n, c0, c, u) && !Missed(w, o, c0, ps, n) && Found(w, c, o, ps[n].typ, r)
    ensures Standing(w, o, ps, n + 1, c0, Push(w, c, o, ps[n].typ, ps[n].isConst, owner, r), u)
  {
    var p, s := ps[n], ps[Last(w, ps, n)].typ;
    FindsIt(w, o, ps, n, c0, c, u, r);
    PushKeepsSound(w, c, o, p, owner, r);
    if Valid(w, c0) {
      OwnIsContained(w, c, o, p.typ, r);
      PushKeepsValidIff(w, c, o, p.typ, p.isConst, owner, r);
    }
    PushTakenIn(w, c0, c, o, u, !Bare(w, o, ps, n), p, owner);
    SummaryStep(w, ps, n, s, c.uds[u].isConst);
    UpgradeIff(w, ps, n, s, c.uds[u].isConst);
    OnABasePlaces(w, o, p.typ);
  }

  /** What the run theorems are about: pushes along a chain, where the other userdata are of unrelated classes. */
  ghost predicate ChainRun(w: World, o: nat, ps: seq<Pushed>, cs: seq<Cache>) {
    w.Ok() && Chain(w, ps) && ps != [] && PushRun(w, o, ps, cs) && Sound(w, cs[0]) && Apart(w, cs[0], o, ps)
  }

  lemma FirstStands(w: World, o: nat, ps: seq<Pushed>, cs: seq<Cache>)
    requires ChainRun(w, o, ps, cs)
    ensures Standing(w, o, ps, 1, cs[0], cs[1], cs[0].next)
  {
    assert PushStep(w, o, ps[0], cs[0], cs[1]);
    var r, owner :| Found(w, cs[0], o, ps[0].typ, r)
                 && cs[1] == Push(w, cs[0], o, ps[0].typ, ps[0].isConst, owner, r);
    ChainFirst(w, o, ps, cs[0], owner, r);
  }

  lemma NextStands(w: World, o: nat, ps: seq<Pushed>, cs: seq<Cache>, n: nat)
    requires ChainRun(w, o, ps, cs) && 0 < n < |ps|
    requires Standing(w, o, ps, n, cs[0], cs[n], cs[0].next) && !Missed(w, o, cs[0], ps, n)
    ensures Standing(w, o, ps, n + 1, cs[0], cs[n + 1], cs[0].next)
  {
    assert PushStep(w, o, ps[n], cs[n], cs[n + 1]);
    var r, owner :| Found(w, cs[n], o, ps[n].typ, r)
                 && cs[n + 1] == Push(w, cs[n], o, ps[n].typ, ps[n].isConst, owner, r);
    ChainNext(w, o, ps, n, cs[0], cs[n], cs[0].next, owner, r);
  }

  ghost predicate NoneMissed(w: World, o: nat, c0: Cache, ps: seq<Pushed>, n: nat)
    requires w.Ok() && Chain(w, ps) && 0 < n <= |ps|
  {
    forall k :: 0 < k < n ==> !Missed(w, o, c0, ps, k)
  }

  lemma FewerMissed(w: World, o: nat, c0: Cache, ps: seq<Pushed>, n: nat)
    requires w.Ok() && Chain(w, ps) && 0 < n < |ps| && NoneMissed(w, o, c0, ps, n + 1)
    ensures NoneMissed(w, o, c0, ps, n) && !Missed(w, o, c0, ps, n)
  {
  }

  /** Until a push is missed there is one userdata. */
  lemma {:induction false} StandsUntilMissed(w: World, o: nat, ps: seq<Pushed>, cs: seq<Cache>, n: nat)
    requires ChainRun(w, o, ps, cs) && 0 < n <= |ps|
    requires NoneMissed(w, o, cs[0], ps, n)
    ensures Standing(w, o, ps, n, cs[0], cs[n], cs[0].next)
    decreases n
  {
    if n == 1 {
      FirstStands(w, o, ps, cs);
    } else {
      FewerMissed(w, o, cs[0], ps, n - 1);
      StandsUntilMissed(w, o, ps, cs, n - 1);
      NextStands(w, o, ps, cs, n - 1);
    }
  }

  /** The one userdata that the pushes so far have added. */
  predicate OneAdded(c0: Cache, c: Cache) {
    c.uds.Keys == c0.uds.Keys + {c0.next}
  }

  /** A push that is missed adds another. */
  lemma MissedAddsAnother(w: World, o: nat, ps: seq<Pushed>, cs: seq<Cache>, n: nat)
    requires ChainRun(w, o, ps, cs) && 0 < n < |ps|
    requires Standing(w, o, ps, n, cs[0], cs[n], cs[0].next) && Missed(w, o, cs[0], ps, n)
    ensures !OneAdded(cs[0], cs[n + 1])
  {
    assert PushStep(w, o, ps[n], cs[n], cs[n + 1]);
    var r, owner :| Found(w, cs[n], o, ps[n].typ, r)
                 && cs[n + 1] == Push(w, cs[n], o, ps[n].typ, ps[n].isConst, owner, r);
    MissesIt(w, o, ps, n, cs[0], cs[n], cs[0].next, r);
    AddedOne(w, cs[n], o, ps[n].typ, ps[n].isConst, owner == OwnedByLua);
    assert cs[n].next in cs[n + 1].uds && cs[n].next !in cs[n].uds;
  }

  lemma {:induction false} OneAllAlong(w: World, o: nat, ps: seq<Pushed>, cs: seq<Cache>, n: nat)
    requires ChainRun(w, o, ps, cs) && 0 < n <= |ps| && forall k :: 0 < k <= n ==> OneAdded(cs[0], cs[k])
    ensures Standing(w, o, ps, n, cs[0], cs[n], cs[0].next)
    decreases n
  {
    if n == 1 {
      FirstStands(w, o, ps, cs);
    } else {
      OneAllAlong(w, o, ps, cs, n - 1);
      OneIsNotMissed(w, o, ps, cs, n - 1);
      NextStands(w, o, ps, cs, n - 1);
    }
  }

  lemma OneIsNotMissed(w: World, o: nat, ps: seq<Pushed>, cs: seq<Cache>, n: nat)
    requires ChainRun(w, o, ps, cs) && 0 < n < |ps| && OneAdded(cs[0], cs[n + 1])
    requires Standing(w, o, ps, n, cs[0], cs[n], cs[0].next)
    ensures !Missed(w, o, cs[0], ps, n)
  {
    if Missed(w, o, cs[0], ps, n) {
      MissedAddsAnother(w, o, ps, cs, n);
    }
  }

  /**
    However often and under whichever classes of one inheritance chain an object is pushed, and wherever its subobjects
    lie, there is one userdata for it all along exactly when no push is missed: the class of an upgrade with no base at
    its address is not pushed again before the next upgrade, and no push meets a collision table at an address where
    the userdata is not registered.
   */
  lemma ChainLeavesOneIff(w: World, o: nat, ps: seq<Pushed>, cs: seq<Cache>)
    requires ChainRun(w, o, ps, cs)
    ensures (forall n :: 0 < n <= |ps| ==> OneAdded(cs[0], cs[n]))
       <==> (forall n :: 0 < n < |ps| ==> !Missed(w, o, cs[0], ps, n))
  {
    if forall n :: 0 < n < |ps| ==> !Missed(w, o, cs[0], ps, n) {
      forall n | 0 < n <= |ps| ensures OneAdded(cs[0], cs[n]) {
        assert NoneMissed(w, o, cs[0], ps, n);
        StandsUntilMissed(w, o, ps, cs, n);
      }
    }
    if forall n :: 0 < n <= |ps| ==> OneAdded(cs[0], cs[n]) {
      forall n | 0 < n < |ps| ensures !Missed(w, o, cs[0], ps, n) {
        OneAllAlong(w, o, ps, cs, n);
        OneIsNotMissed(w, o, ps, cs, n);
      }
    }
  }

  // ---- registered at all addresses ----

  /**
    The cache is valid if it was, and has one userdata more, registered at all addresses of the object, whose class is
    the most derived one pushed and which is const exactly when every push was.
   */
  ghost predicate OneForAll(w: World, o: nat, ps: seq<Pushed>, n: nat, c0: Cache, c: Cache, u: nat)
    requires w.Ok() && n <= |ps|
  {
    && (Valid(w, c0) ==> Valid(w, c)) && u in c.uds && c.uds[u].typ in w.bases
    && OneMore(o, c0, c, u, c.uds[u].typ, w.Cover(o, c.uds[u].typ))
    && Summary(w, ps, n, c.uds[u].typ, c.uds[u].isConst)
  }

  lemma FullUnlessBare(w: World, o: nat, ps: seq<Pushed>, n: nat, c0: Cache, c: Cache, u: nat)
    requires Sound(w, c0) && Chain(w, ps) && 0 < n <= |ps| && Standing(w, o, ps, n, c0, c, u)
    ensures OneForAll(w, o, ps, n, c0, c, u) <==> !Bare(w, o, ps, n)
  {
    var t := ps[Last(w, ps, n)].typ;
    var p := w.at(o, t);
    OnABasePlaces(w, o, t);
    if Bare(w, o, ps, n) {
      assert PlaceAt(c0, c, u, Places(w, o, t, false), p);
      assert SlotAt(c, p) == SlotAt(c0, p) && Holds(c, p) == Holds(c0, p);
      assert u in Holds(c0, p) ==> u in c0.uds;
      assert !PlaceAt(c0, c, u, w.Cover(o, t), p);
    }
  }

  /** The last upgrade is one. */
  lemma {:induction false} LastIsUpgrade(w: World, ps: seq<Pushed>, n: nat)
    requires w.Ok() && Chain(w, ps) && 0 < n <= |ps|
    ensures Last(w, ps, n) > 0 ==> IsUpgrade(w, ps, Last(w, ps, n))
    decreases n
  {
    if n > 1 {
      LastIsUpgrade(w, ps, n - 1);
    }
  }

  ghost predicate SumsUp(w: World, o: nat, ps: seq<Pushed>, cs: seq<Cache>, n: nat)
    requires w.Ok() && n <= |ps| && n < |cs|
  {
    OneForAll(w, o, ps, n, cs[0], cs[n], cs[0].next)
  }

  /** If push `n` is of a class derived from all those before, that class has one of its bases at its address. */
  ghost predicate UpgradesOnABase(w: World, o: nat, ps: seq<Pushed>, n: nat)
    requires w.Ok() && Chain(w, ps) && n < |ps|
  {
    IsUpgrade(w, ps, n) ==> OnABase(w, o, ps[n].typ)
  }

  ghost predicate Reached(w: World, o: nat, c0: Cache, ps: seq<Pushed>, n: nat)
    requires w.Ok() && Chain(w, ps) && 0 < n < |ps|
  {
    UpgradesOnABase(w, o, ps, n) && !Missed(w, o, c0, ps, n)
  }

  lemma {:induction false} FullAllAlong(w: World, o: nat, ps: seq<Pushed>, cs: seq<Cache>, n: nat)
    requires ChainRun(w, o, ps, cs) && 0 < n <= |ps|
    requires forall k :: 0 < k <= n ==> SumsUp(w, o, ps, cs, k)
    ensures Standing(w, o, ps, n, cs[0], cs[n], cs[0].next) && !Bare(w, o, ps, n)
    decreases n
  {
    if n == 1 {
      FirstStands(w, o, ps, cs);
    } else {
      FullAllAlong(w, o, ps, cs, n - 1);
      assert SumsUp(w, o, ps, cs, n);
      OneIsNotMissed(w, o, ps, cs, n - 1);
      NextStands(w, o, ps, cs, n - 1);
    }
    assert SumsUp(w, o, ps, cs, n);
    FullUnlessBare(w, o, ps, n, cs[0], cs[n], cs[0].next);
  }

  lemma BasedSumsUp(w: World, o: nat, ps: seq<Pushed>, cs: seq<Cache>, n: nat)
    requires ChainRun(w, o, ps, cs) && 0 < n <= |ps|
    requires forall k :: 0 < k < |ps| ==> Reached(w, o, cs[0], ps, k)
    ensures SumsUp(w, o, ps, cs, n)
  {
    forall k | 0 < k <= n ensures !Bare(w, o, ps, k) {
      LastIsUpgrade(w, ps, k);
      assert Last(w, ps, k) > 0 ==> Reached(w, o, cs[0], ps, Last(w, ps, k));
    }
    forall k | 0 < k < n ensures !Missed(w, o, cs[0], ps, k) {
      assert Reached(w, o, cs[0], ps, k);
    }
    assert NoneMissed(w, o, cs[0], ps, n);
    StandsUntilMissed(w, o, ps, cs, n);
    FullUnlessBare(w, o, ps, n, cs[0], cs[n], cs[0].next);
  }

  lemma SummedUpIsBased(w: World, o: nat, ps: seq<Pushed>, cs: seq<Cache>)
    requires ChainRun(w, o, ps, cs) && forall n :: 0 < n <= |ps| ==> SumsUp(w, o, ps, cs, n)
    ensures forall n :: 0 < n < |ps| ==> Reached(w, o, cs[0], ps, n)
  {
    forall n | 0 < n < |ps| ensures Reached(w, o, cs[0], ps, n) {
      FullAllAlong(w, o, ps, cs, n);
      assert SumsUp(w, o, ps, cs, n + 1);
      OneIsNotMissed(w, o, ps, cs, n);
      FullAllAlong(w, o, ps, cs, n + 1);
    }
  }

  /**
    All along there is one userdata that sums up the pushes and is registered at all addresses of the object exactly
    when every class pushed that is derived from all those before it has one of its bases at its address, and no push
    is missed.
   */
  lemma ChainSumsUpIff(w: World, o: nat, ps: seq<Pushed>, cs: seq<Cache>)
    requires ChainRun(w, o, ps, cs)
    ensures (forall n :: 0 < n <= |ps| ==> SumsUp(w, o, ps, cs, n))
       <==> (forall n :: 0 < n < |ps| ==> Reached(w, o, cs[0], ps, n))
  {
    if forall n :: 0 < n < |ps| ==> Reached(w, o, cs[0], ps, n) {
      forall n | 0 < n <= |ps| ensures SumsUp(w, o, ps, cs, n) {
        BasedSumsUp(w, o, ps, cs, n);
      }
    }
    if forall n :: 0 < n <= |ps| ==> SumsUp(w, o, ps, cs, n) {
      SummedUpIsBased(w, o, ps, cs);
    }
  }

  /** All subobjects of the object lie at its address. */
  ghost predicate AtOneAddress(w: World, o: nat, a: nat) {
    forall t :: w.at(o, t) == a
  }

  /** With a single address, that its neighbours there are unrelated is enough for all this. */
  lemma OneAddressIsEnough(w: World, c: Cache, o: nat, a: nat, ps: seq<Pushed>)
    requires w.Ok() && Chain(w, ps) && AtOneAddress(w, o, a) && Unrelated(w, c, a, ps)
    ensures Apart(w, c, o, ps) && forall n :: 0 < n < |ps| ==> Reached(w, o, c, ps, n)
  {
    forall n | 0 < n < |ps| && IsUpgrade(w, ps, n) ensures OnABase(w, o, ps[n].typ) {
      assert ps[0].typ in w.All(ps[n].typ) && w.at(o, ps[0].typ) == w.at(o, ps[n].typ);
    }
    forall n | 0 < n < |ps| ensures !Missed(w, o, c, ps, n) {
      LastIsUpgrade(w, ps, n);
      assert !Bare(w, o, ps, n);
      assert a in Places(w, o, ps[Last(w, ps, n)].typ, true);
    }
  }

  // ---- a collision table in the way ----

  /** Object 7 is a 2 with the bases 0 and 1, the second of them elsewhere; objects 8 and 9 are at its address. */
  const SHARED := World(map[0 := [], 1 := [], 2 := [0, 1], 3 := [], 4 := []],
                        map[0 := 0, 1 := 0, 2 := 1, 3 := 0, 4 := 0], (o, t) => SharedAt(o, t))

  function SharedAt(o: nat, t: nat): nat {
    if o == 7 && t == 1 then 108 else 100
  }

  const EIGHT := Ud(8, 3, false, false, false)
  const NINE := Ud(9, 4, false, false, true)
  const SEVEN := Ud(7, 1, false, false, false)

  /** The pushes of 8 and 9 leave a table at 100; then 7 is pushed as a 1. */
  const S1 := Cache(map[0 := EIGHT], map[], map[100 := Single(0)], {}, 1)
  const S2 := Cache(map[0 := EIGHT.(collision := true), 1 := NINE], map[], map[100 := Table(2, {0, 1})], {2}, 3)
  const S3 := Cache(S2.uds[3 := SEVEN], map[], S2.slots[108 := Single(3)], {2}, 4)

  lemma SharedBases()
    ensures SHARED.Ok() && SHARED.All(2) == [0, 1]
    ensures forall t :: t in SHARED.bases && t != 2 ==> SHARED.All(t) == [] && SHARED.Roots(t) == []
  {
    forall t | t in SHARED.bases && t != 2 ensures SHARED.All(t) == [] && SHARED.Roots(t) == [] {
      NoBases(SHARED, t);
    }
    TwoBases(SHARED, 2, 0, 1);
  }

  ghost predicate Pushes(c: Cache, o: nat, t: nat, c': Cache) {
    && SHARED.Ok() && t in SHARED.bases && Found(SHARED, c, o, t, None)
    && c' == Push(SHARED, c, o, t, false, NoChange, None)
  }

  lemma NeighboursArePushed()
    ensures Pushes(EMPTY, 8, 3, S1) && Pushes(S1, 9, 4, S2)
  {
    SharedBases();
    var c := S1.(uds := S1.uds[1 := Ud(9, 4, false, false, false)], next := 2);
    assert AddIfRequired(c, 100, 1) == S2;
  }

  lemma PartIsPushed()
    ensures Pushes(S2, 7, 1, S3)
  {
    SharedBases();
    assert AddIfRequired(S2.(uds := S3.uds, next := 4), 108, 3) == S3;
  }

  lemma SharedIsSound()
    ensures Sound(SHARED, S2) && Sound(SHARED, S3)
  {
    SharedBases();
    NeighboursArePushed();
    PartIsPushed();
    PushKeepsSound(SHARED, EMPTY, 8, Pushed(3, false), NoChange, None);
    PushKeepsSound(SHARED, S1, 9, Pushed(4, false), NoChange, None);
    PushKeepsSound(SHARED, S2, 7, Pushed(1, false), NoChange, None);
  }

  lemma AddedOneMore(c: Cache)
    requires Pushes(S3, 7, 2, c)
    ensures 3 in c.uds && 4 in c.uds && c.uds[3].obj == c.uds[4].obj == 7
  {
    SharedIsSound();
    AddedOne(SHARED, S3, 7, 2, false, false);
    assert 3 in S3.uds && S3.next == 4;
  }

  const HIDDEN := [Pushed(1, false), Pushed(2, false)]

  lemma HiddenIsChain()
    ensures SHARED.Ok() && Chain(SHARED, HIDDEN)
  {
    SharedBases();
    assert 1 in SHARED.All(2);
  }

  lemma HiddenIsApart()
    ensures SHARED.Ok() && Chain(SHARED, HIDDEN) && Apart(SHARED, S2, 7, HIDDEN)
  {
    SharedBases();
    HiddenIsChain();
    forall i, p {:trigger p in SHARED.Cover(7, HIDDEN[i].typ)} |
      0 <= i < |HIDDEN| && p in SHARED.Cover(7, HIDDEN[i].typ)
      ensures Unrelated(SHARED, S2, p, HIDDEN)
    {
      NeighboursAreUnrelated(p);
    }
  }

  lemma NeighboursAreUnrelated(p: nat)
    ensures SHARED.Ok() && Chain(SHARED, HIDDEN) && Unrelated(SHARED, S2, p, HIDDEN)
  {
    SharedBases();
    HiddenIsChain();
    forall v, i | v in Holds(S2, p) && 0 <= i < |HIDDEN| ensures !Fits(SHARED, S2, v, HIDDEN[i].typ) {
      assert v == 0 || v == 1;
    }
  }

  lemma HiddenIsMissed()
    ensures SHARED.Ok() && Chain(SHARED, HIDDEN)
    ensures UpgradesOnABase(SHARED, 7, HIDDEN, 1) && Missed(SHARED, 7, S2, HIDDEN, 1)
  {
    SharedBases();
    HiddenIsChain();
    assert 0 in SHARED.All(2) && SHARED.at(7, 0) == SHARED.at(7, 2);
    assert Last(SHARED, HIDDEN, 1) == 0;
  }

  lemma HiddenIsRun(c: Cache)
    requires Pushes(S3, 7, 2, c)
    ensures SHARED.Ok() && Chain(SHARED, HIDDEN) && PushRun(SHARED, 7, HIDDEN, [S2, S3, c])
  {
    HiddenIsChain();
    PartIsPushed();
    assert PushStep(SHARED, 7, HIDDEN[0], S2, S3) && PushStep(SHARED, 7, HIDDEN[1], S3, c);
  }

  lemma NotFoundInTable(r: Option<nat>)
    requires SHARED.Ok() && Found(SHARED, S3, 7, 2, r)
    ensures r == None
  {
    SharedBases();
  }

  /**
    Pushed as a 2, object 7 is looked for in the table at its address, and not where its base is.  A base lies at its
    address and its neighbours are unrelated, and still it gets a second userdata.
   */
  lemma TableHidesObject() returns (c: Cache)
    ensures Pushes(EMPTY, 8, 3, S1) && Pushes(S1, 9, 4, S2) && Pushes(S2, 7, 1, S3) && Pushes(S3, 7, 2, c)
    ensures forall r :: Found(SHARED, S3, 7, 2, r) ==> r == None
    ensures 3 in c.uds && 4 in c.uds && c.uds[3].obj == c.uds[4].obj == 7
    ensures ChainRun(SHARED, 7, HIDDEN, [S2, S3, c])
    ensures UpgradesOnABase(SHARED, 7, HIDDEN, 1) && Missed(SHARED, 7, S2, HIDDEN, 1)
  {
    SharedBases();
    assert Found(SHARED, S3, 7, 2, None);
    c := Push(SHARED, S3, 7, 2, false, NoChange, None);
    forall r | Found(SHARED, S3, 7, 2, r) ensures r == None {
      NotFoundInTable(r);
    }
    NeighboursArePushed();
    PartIsPushed();
    AddedOneMore(c);
    SharedIsSound();
    HiddenIsRun(c);
    HiddenIsApart();
    HiddenIsMissed();
  }
}
