/**
  The collector's side of the userdata cache: Lua clears a dead userdata from the weak values, and some time later runs
  its finalizer, which removes the collision tables that have become empty.
*/
module UserdataCollector {
  import opened Wrappers

  import opened ClassGraph
  import opened TypeLists
  import opened UserdataModel

  /** Lua clears a dead userdata from the weak table and from the collision tables. */
  function Clear(c: Cache, u: nat): Cache
    requires u in c.uds
  {
    c.(uds := c.uds - {u}, pending := c.pending[u := c.uds[u]],
       slots := map p | p in c.slots && c.slots[p] != Single(u) ::
         match c.slots[p]
         case Single(v) => Single(v)
         case Table(id, us) => Table(id, us - {u}))
  }

  /** `gc_clean_table`: an empty collision table loses its slot and its anchor. */
  function CleanSlot(c: Cache, p: nat): Cache {
    if p in c.slots && c.slots[p].Table? && c.slots[p].uds == {} then
      c.(slots := c.slots - {p}, anchors := c.anchors - {c.slots[p].id})
    else c
  }

  function CleanSlots(c: Cache, ps: seq<nat>): Cache
    decreases |ps|
  {
    if ps == [] then c else CleanSlots(CleanSlot(c, ps[0]), ps[1..])
  }

  /**
    `gc_table_cleaner`: the addresses of the bases, walked recursively; a base at the address of the class it was
    reached from is skipped.
   */
  function BaseAddresses(w: World, o: nat, t: nat, list: seq<nat>, ghost bound: nat): seq<nat>
    requires w.Ok() && forall b :: b in list ==> b in w.bases && w.rank[b] < bound
    decreases bound, |list|
  {
    if list == [] then []
    else
      (if w.at(o, t) != w.at(o, list[0]) then [w.at(o, list[0])] else [])
      + BaseAddresses(w, o, t, list[1..], bound)
      + BaseAddresses(w, o, list[0], w.bases[list[0]], w.rank[list[0]])
  }

  /** The addresses that the finalizer of a userdata cleans. */
  function CleanedBy(w: World, ud: Ud): seq<nat>
    requires w.Ok() && ud.typ in w.bases
  {
    [w.at(ud.obj, ud.typ)] + BaseAddresses(w, ud.obj, ud.typ, w.bases[ud.typ], w.rank[ud.typ])
  }

  /** The finalizer: only a userdata that has been in a collision has tables to clean. */
  function Finalize(w: World, c: Cache, u: nat): Cache
    requires w.Ok() && u in c.pending && c.pending[u].typ in w.bases
  {
    var c' := c.(pending := c.pending - {u});
    if c.pending[u].collision then CleanSlots(c', CleanedBy(w, c.pending[u])) else c'
  }

  /** The recursive walk, skips and all, reaches the address of every listed base and of all their bases. */
  lemma {:induction false} WalkReaches(w: World, o: nat, t: nat, list: seq<nat>, bound: nat, x: nat)
    requires w.Ok() && forall b :: b in list ==> b in w.bases && w.rank[b] < bound
    requires x in list || x in BasesOfEach(w.bases, w.rank, list, bound)
    ensures w.at(o, x) == w.at(o, t) || w.at(o, x) in BaseAddresses(w, o, t, list, bound)
    decreases bound, |list|
  {
    var b := list[0];
    if x == b {
    } else if x in list[1..] || x in BasesOfEach(w.bases, w.rank, list[1..], bound) {
      WalkReaches(w, o, t, list[1..], bound, x);
    } else {
      assert x in AllBases(w.bases, w.rank, b);
      WalkReaches(w, o, b, w.bases[b], w.rank[b], x);
    }
  }

  /** So a finalizer cleans every address its userdata may have been registered at. */
  lemma FinalizerReaches(w: World, ud: Ud, p: nat)
    requires w.Ok() && w.Covers(ud, p)
    ensures p in CleanedBy(w, ud)
  {
    if p != w.at(ud.obj, ud.typ) {
      var b :| b in w.All(ud.typ) && p == w.at(ud.obj, b);
      WalkReaches(w, ud.obj, ud.typ, w.bases[ud.typ], w.rank[ud.typ], b);
    }
  }

  lemma {:induction false} CleanSlotsEffect(c: Cache, ps: seq<nat>)
    ensures var c' := CleanSlots(c, ps);
            && c'.uds == c.uds && c'.pending == c.pending && c'.next == c.next
            && c'.slots == map p | p in c.slots && !(p in ps && c.slots[p].Table? && c.slots[p].uds == {}) :: c.slots[p]
    decreases |ps|
  {
    if ps != [] {
      CleanSlotsEffect(CleanSlot(c, ps[0]), ps[1..]);
      assert forall p :: p in ps <==> p == ps[0] || p in ps[1..];
    }
  }

  lemma {:induction false} CleanSlotsAnchors(c: Cache, ps: seq<nat>)
    requires Anchored(c)
    ensures Anchored(CleanSlots(c, ps))
    decreases |ps|
  {
    if ps != [] {
      var c' := CleanSlot(c, ps[0]);
      forall id | id in c'.anchors
        ensures id < c'.next && exists q :: q in c'.slots && c'.slots[q].Table? && c'.slots[q].id == id
      {
        var q :| q in c.slots && c.slots[q].Table? && c.slots[q].id == id;
        assert q in c'.slots && c'.slots[q].Table? && c'.slots[q].id == id;
      }
      CleanSlotsAnchors(c', ps[1..]);
    }
  }

  lemma ClearRemoves(c: Cache, u: nat, p: nat)
    requires u in c.uds
    ensures Holds(Clear(c, u), p) == Holds(c, p) - {u}
  {
  }

  lemma ClearKeepsAnchored(c: Cache, u: nat)
    requires Anchored(c) && u in c.uds
    ensures Anchored(Clear(c, u))
  {
    var c' := Clear(c, u);
    forall id | id in c'.anchors
      ensures id < c'.next && exists q :: q in c'.slots && c'.slots[q].Table? && c'.slots[q].id == id
    {
      var q :| q in c.slots && c.slots[q].Table? && c.slots[q].id == id;
      assert q in c'.slots && c'.slots[q].Table? && c'.slots[q].id == id;
    }
  }

  /** Clearing a userdata keeps the cache valid: a table it leaves empty awaits its finalizer. */
  lemma ClearKeepsValid(w: World, c: Cache, u: nat)
    requires Valid(w, c) && u in c.uds
    ensures Valid(w, Clear(c, u))
  {
    var c' := Clear(c, u);
    ClearKeepsAnchored(c, u);
    forall p, v {:trigger v in Holds(c', p)} | v in Holds(c', p) ensures v in c'.uds && w.Covers(c'.uds[v], p) {
      ClearRemoves(c, u, p);
    }
    forall p | p in c'.slots ensures Tended(w, c', p) {
      assert Tended(w, c, p);
      if c'.slots[p].Table? && c'.slots[p].uds == {} {
        if u in c.slots[p].uds {
          assert u in Holds(c, p) && c'.pending[u].collision && w.Covers(c'.pending[u], p);
        } else {
          assert c.slots[p].uds == {};
          var v :| v in c.pending && c.pending[v].collision && w.Covers(c.pending[v], p);
          assert v in c'.pending && c'.pending[v].collision && w.Covers(c'.pending[v], p);
        }
      }
    }
    forall v | v in c'.uds ensures RegisteredUd(w, c', v) {
      assert RegisteredUd(w, c, v);
      forall p ensures v in Holds(c, p) ==> v in Holds(c', p) { ClearRemoves(c, u, p); }
    }
  }

  /** Running a finalizer keeps the cache valid: the empty tables that awaited it are gone. */
  lemma FinalizeKeepsValid(w: World, c: Cache, u: nat)
    requires Valid(w, c) && u in c.pending
    ensures Valid(w, Finalize(w, c, u))
  {
    var ud := c.pending[u];
    var c1 := c.(pending := c.pending - {u});
    var c' := Finalize(w, c, u);
    if ud.collision {
      CleanSlotsEffect(c1, CleanedBy(w, ud));
      CleanSlotsAnchors(c1, CleanedBy(w, ud));
    }
    forall p, v {:trigger v in Holds(c', p)} | v in Holds(c', p) ensures v in c'.uds && w.Covers(c'.uds[v], p) {
      assert v in Holds(c, p);
    }
    forall p | p in c'.slots ensures Tended(w, c', p) {
      assert Tended(w, c, p);
      if c'.slots[p].Table? && c'.slots[p].uds == {} {
        var v :| v in c.pending && c.pending[v].collision && w.Covers(c.pending[v], p);
        if v == u {
          FinalizerReaches(w, ud, p);
        }
        assert v in c'.pending && c'.pending[v].collision && w.Covers(c'.pending[v], p);
      }
    }
    forall v | v in c'.uds ensures RegisteredUd(w, c', v) {
      assert RegisteredUd(w, c, v);
      forall p ensures v in Holds(c, p) ==> v in Holds(c', p) {}
    }
  }

  // ---- whole runs ----

  datatype Event =
    | Pushing(o: nat, t: nat, isConst: bool, owner: Owner, found: Option<nat>)
    | Owning(ud: nat, owner: Owner)
    | Clearing(ud: nat)
    | Finalizing(ud: nat)

  ghost predicate Possible(w: World, c: Cache, e: Event)
    requires w.Ok()
  {
    match e
    case Pushing(o, t, _, _, found) => t in w.bases && Found(w, c, o, t, found)
    case Owning(u, _) => u in c.uds
    case Clearing(u) => u in c.uds
    case Finalizing(u) => u in c.pending && c.pending[u].typ in w.bases
  }

  ghost function After(w: World, c: Cache, e: Event): Cache
    requires w.Ok() && Possible(w, c, e)
  {
    match e
    case Pushing(o, t, isConst, owner, found) => Push(w, c, o, t, isConst, owner, found)
    case Owning(u, owner) => SetOwner(c, u, owner)
    case Clearing(u) => Clear(c, u)
    case Finalizing(u) => Finalize(w, c, u)
  }

  /** The states of a run from the empty cache. */
  ghost predicate IsRun(w: World, es: seq<Event>, cs: seq<Cache>)
    requires w.Ok()
  {
    && |cs| == |es| + 1 && cs[0] == EMPTY
    && forall i :: 0 <= i < |es| ==> Possible(w, cs[i], es[i]) && cs[i + 1] == After(w, cs[i], es[i])
  }

  /** Every upgrade made by one of the first `n` events left the userdata at addresses of its object only. */
  ghost predicate ContainedUpTo(w: World, es: seq<Event>, cs: seq<Cache>, n: nat)
    requires w.Ok() && IsRun(w, es, cs) && n <= |es|
  {
    forall i :: 0 <= i < n && es[i].Pushing? ==> Contained(w, cs[i], es[i].o, es[i].t, es[i].found)
  }

  lemma EventKeepsValidIff(w: World, c: Cache, e: Event)
    requires w.Ok() && Possible(w, c, e) && Valid(w, c)
    ensures Valid(w, After(w, c, e)) <==> (e.Pushing? ==> Contained(w, c, e.o, e.t, e.found))
  {
    match e
    case Pushing(o, t, isConst, owner, found) => PushKeepsValidIff(w, c, o, t, isConst, owner, found);
    case Owning(u, owner) => OwnerKeepsValidIff(w, c, u, owner);
    case Clearing(u) => ClearKeepsValid(w, c, u);
    case Finalizing(u) => FinalizeKeepsValid(w, c, u);
  }

  /** The cache has been valid all along exactly when every upgrade was contained. */
  lemma {:induction false} RunsAreValidIff(w: World, es: seq<Event>, cs: seq<Cache>, n: nat)
    requires w.Ok() && IsRun(w, es, cs) && n <= |es|
    ensures (forall i :: 0 <= i <= n ==> Valid(w, cs[i])) <==> ContainedUpTo(w, es, cs, n)
  {
    if n > 0 {
      RunsAreValidIff(w, es, cs, n - 1);
      assert Possible(w, cs[n - 1], es[n - 1]) && cs[n] == After(w, cs[n - 1], es[n - 1]);
      if Valid(w, cs[n - 1]) {
        EventKeepsValidIff(w, cs[n - 1], es[n - 1]);
      }
    }
  }

  /** Once every userdata has been collected, in whatever order, no slot and no anchored table is left. */
  lemma NothingIsLeft(w: World, es: seq<Event>, cs: seq<Cache>, n: nat)
    requires w.Ok() && IsRun(w, es, cs) && n <= |es| && ContainedUpTo(w, es, cs, n)
    ensures var c := cs[n]; c.uds == map[] && c.pending == map[] ==> c.slots == map[] && c.anchors == {}
  {
    RunsAreValidIff(w, es, cs, n);
    var c := cs[n];
    assert Valid(w, c);
    forall p | p in c.slots
      ensures c.slots[p].Single? ==> c.slots[p].ud in c.uds
      ensures c.slots[p].Table? ==> c.slots[p].uds <= c.uds.Keys && (c.slots[p].uds == {} ==> c.pending != map[])
    {
      assert Tended(w, c, p);
      assert c.slots[p].Single? ==> c.slots[p].ud in Holds(c, p);
    }
    if c.uds == map[] && c.pending == map[] {
      assert c.slots.Keys == {};
    }
  }
}
