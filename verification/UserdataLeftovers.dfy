/**
  What is left of the cache once every userdata has been collected, in whatever order: exactly when it is nothing.
 */
module UserdataLeftovers {
  import opened Wrappers

  import opened TypeLists
  import opened UserdataModel
  import opened UserdataCollector
  import opened UserdataAliasing

  /** The userdata has been in a collision, and its finalizer cleans the address. */
  ghost predicate Cleans(w: World, ud: Ud, p: nat)
    requires w.Ok()
  {
    ud.collision && ud.typ in w.bases && p in CleanedBy(w, ud)
  }

  /** Some userdata, alive or cleared, will clean the address. */
  ghost predicate WillClean(w: World, c: Cache, p: nat)
    requires w.Ok()
  {
    exists u :: (u in c.uds && Cleans(w, c.uds[u], p)) || (u in c.pending && Cleans(w, c.pending[u], p))
  }

  /** Each userdata in the collision table will clean it, and if there are none some other userdata will. */
  ghost predicate Cleanable(w: World, c: Cache, p: nat)
    requires w.Ok() && p in c.slots
  {
    c.slots[p].Table? ==>
      && (forall u :: u in c.slots[p].uds ==> u in c.uds && Cleans(w, c.uds[u], p))
      && (c.slots[p].uds == {} ==> WillClean(w, c, p))
  }

  ghost predicate AllCleanable(w: World, c: Cache)
    requires w.Ok()
  {
    forall p {:trigger Cleanable(w, c, p)} :: p in c.slots ==> Cleanable(w, c, p)
  }

  // ---- collecting everything ----

  /** Lua clears and finalizes, and nothing else happens. */
  ghost predicate Collecting(w: World, c: Cache, es: seq<Event>, cs: seq<Cache>)
    requires w.Ok()
  {
    && |cs| == |es| + 1 && cs[0] == c
    && forall i :: 0 <= i < |es| ==> CollectStep(w, cs[i], es[i], cs[i + 1])
  }

  ghost predicate CollectStep(w: World, c: Cache, e: Event, c': Cache)
    requires w.Ok()
  {
    (e.Clearing? || e.Finalizing?) && Possible(w, c, e) && c' == After(w, c, e)
  }

  predicate AllCollected(c: Cache) {
    c.uds == map[] && c.pending == map[]
  }

  predicate NothingLeft(c: Cache) {
    c.slots == map[] && c.anchors == {}
  }

  lemma StepKeepsSane(w: World, c: Cache, e: Event, c': Cache)
    requires w.Ok() && Sane(w, c) && CollectStep(w, c, e, c')
    ensures Sane(w, c')
  {
    match e
    case Clearing(u) => ClearKeepsSane(w, c, u);
    case Finalizing(u) => FinalizeKeepsSane(w, c, u);
  }

  /** What a finalizer leaves at an address. */
  lemma FinalizeAt(w: World, c: Cache, u: nat, p: nat)
    requires w.Ok() && u in c.pending && c.pending[u].typ in w.bases
    ensures var c' := Finalize(w, c, u);
            var empty := p in c.slots && c.slots[p].Table? && c.slots[p].uds == {};
            && c'.uds == c.uds && c'.pending == c.pending - {u}
            && (p in c'.slots <==> p in c.slots && !(empty && Cleans(w, c.pending[u], p)))
            && (p in c'.slots ==> c'.slots[p] == c.slots[p])
  {
    if c.pending[u].collision {
      CleanSlotsEffect(c.(pending := c.pending - {u}), CleanedBy(w, c.pending[u]));
    }
  }

  /** Clearing moves userdata from the living to those awaiting their finalizer. */
  lemma ClearKeepsWillClean(w: World, c: Cache, u: nat, p: nat)
    requires w.Ok() && u in c.uds && u !in c.pending
    ensures WillClean(w, Clear(c, u), p) <==> WillClean(w, c, p)
  {
    var c' := Clear(c, u);
    if WillClean(w, c, p) {
      var v :| (v in c.uds && Cleans(w, c.uds[v], p)) || (v in c.pending && Cleans(w, c.pending[v], p));
      assert (v in c'.uds && Cleans(w, c'.uds[v], p)) || (v in c'.pending && Cleans(w, c'.pending[v], p));
    }
    if WillClean(w, c', p) {
      var v :| (v in c'.uds && Cleans(w, c'.uds[v], p)) || (v in c'.pending && Cleans(w, c'.pending[v], p));
      assert (v in c.uds && Cleans(w, c.uds[v], p)) || (v in c.pending && Cleans(w, c.pending[v], p));
    }
  }

  lemma FinalizeAddsNone(w: World, c: Cache, u: nat, p: nat)
    requires w.Ok() && u in c.pending && c.pending[u].typ in w.bases
    ensures WillClean(w, Finalize(w, c, u), p) ==> WillClean(w, c, p)
  {
    var c' := Finalize(w, c, u);
    FinalizeAt(w, c, u, p);
    if WillClean(w, c', p) {
      var x :| (x in c'.uds && Cleans(w, c'.uds[x], p)) || (x in c'.pending && Cleans(w, c'.pending[x], p));
      assert (x in c.uds && Cleans(w, c.uds[x], p)) || (x in c.pending && Cleans(w, c.pending[x], p));
    }
  }

  lemma ClearKeepsCleanable(w: World, c: Cache, u: nat, p: nat)
    requires w.Ok() && Sane(w, c) && u in c.uds && p in c.slots && Cleanable(w, c, p) && p in Clear(c, u).slots
    ensures Cleanable(w, Clear(c, u), p)
  {
    var c' := Clear(c, u);
    ClearKeepsWillClean(w, c, u, p);
    if c'.slots[p].Table? && c'.slots[p].uds == {} && u in c.slots[p].uds {
      assert u in c'.pending && Cleans(w, c'.pending[u], p);
    }
  }

  lemma FinalizeKeepsCleanable(w: World, c: Cache, u: nat, p: nat)
    requires w.Ok() && Sane(w, c) && u in c.pending && p in c.slots && Cleanable(w, c, p)
    requires p in Finalize(w, c, u).slots
    ensures Cleanable(w, Finalize(w, c, u), p)
  {
    var c' := Finalize(w, c, u);
    FinalizeAt(w, c, u, p);
    if c.slots[p].Table? && c.slots[p].uds == {} {
      var v :| (v in c.uds && Cleans(w, c.uds[v], p)) || (v in c.pending && Cleans(w, c.pending[v], p));
      assert (v in c'.uds && Cleans(w, c'.uds[v], p)) || (v in c'.pending && Cleans(w, c'.pending[v], p));
    }
  }

  lemma StepKeepsCleanable(w: World, c: Cache, e: Event, c': Cache)
    requires w.Ok() && Sane(w, c) && AllCleanable(w, c) && CollectStep(w, c, e, c')
    ensures AllCleanable(w, c')
  {
    forall p | p in c'.slots ensures Cleanable(w, c', p) {
      match e
      case Clearing(u) =>
        assert p in c.slots && Cleanable(w, c, p);
        ClearKeepsCleanable(w, c, u, p);
      case Finalizing(u) =>
        FinalizeAt(w, c, u, p);
        assert Cleanable(w, c, p);
        FinalizeKeepsCleanable(w, c, u, p);
    }
  }

  lemma {:induction false} CollectingKeeps(w: World, c: Cache, es: seq<Event>, cs: seq<Cache>, n: nat)
    requires w.Ok() && Sane(w, c) && Collecting(w, c, es, cs) && n <= |es|
    ensures Sane(w, cs[n]) && (AllCleanable(w, c) ==> AllCleanable(w, cs[n]))
  {
    if n > 0 {
      CollectingKeeps(w, c, es, cs, n - 1);
      assert CollectStep(w, cs[n - 1], es[n - 1], cs[n]);
      StepKeepsSane(w, cs[n - 1], es[n - 1], cs[n]);
      if AllCleanable(w, cs[n - 1]) {
        StepKeepsCleanable(w, cs[n - 1], es[n - 1], cs[n]);
      }
    }
  }

  /** With every userdata collected, what is left is what cannot be cleaned any more. */
  lemma LeftIffUncleanable(w: World, c: Cache)
    requires w.Ok() && Sane(w, c) && AllCollected(c)
    ensures NothingLeft(c) <==> AllCleanable(w, c)
  {
    forall p | p in c.slots ensures !Cleanable(w, c, p) {
      assert forall u :: u in Holds(c, p) ==> u in c.uds;
      assert Holds(c, p) == {};
    }
    if AllCleanable(w, c) {
      assert c.slots.Keys == {};
    }
  }

  // ---- a table that is not cleaned stays ----

  /** The table at `p` is there for good: it is empty and nothing will clean it, or it holds `u`, which will not. */
  ghost predicate Stuck(w: World, c: Cache, p: nat, u: nat)
    requires w.Ok()
  {
    && p in c.slots && c.slots[p].Table?
    && ((c.slots[p].uds == {} && !WillClean(w, c, p))
        || (u in c.slots[p].uds && u in c.uds && !Cleans(w, c.uds[u], p)))
  }

  /** The userdata to be collected next: any but `u`, as long as there are others. */
  lemma NextCollected(w: World, c: Cache, u: nat) returns (e: Event, c': Cache)
    requires w.Ok() && Sane(w, c) && !AllCollected(c)
    ensures CollectStep(w, c, e, c')
    ensures 2 * |c'.uds| + |c'.pending| < 2 * |c.uds| + |c.pending|
    ensures e == Clearing(u) ==> c.uds.Keys == {u} && c.pending == map[]
  {
    if v :| v in c.pending {
      e, c' := Finalizing(v), Finalize(w, c, v);
      FinalizeAt(w, c, v, 0);
      OneFewer(c.pending, v);
    } else {
      var v := AnyBut(c.uds, u);
      e, c' := Clearing(v), Clear(c, v);
      MovesOne(c, v);
    }
  }

  lemma MovesOne(c: Cache, v: nat)
    requires v in c.uds && c.pending == map[]
    ensures |Clear(c, v).uds| == |c.uds| - 1 && |Clear(c, v).pending| == 1
  {
    OneFewer(c.uds, v);
    assert Clear(c, v).pending == map[v := c.uds[v]];
  }

  lemma AnyBut(uds: map<nat, Ud>, u: nat) returns (v: nat)
    requires uds != map[]
    ensures v in uds && (v == u ==> uds.Keys == {u})
  {
    if x :| x in uds && x != u {
      v := x;
    } else {
      v :| v in uds;
    }
  }

  lemma OneFewer(uds: map<nat, Ud>, v: nat)
    requires v in uds
    ensures |uds - {v}| == |uds| - 1
  {
    assert (uds - {v}).Keys == uds.Keys - {v};
    assert |uds.Keys - {v}| == |uds.Keys| - 1;
  }

  /** The last userdata leaves an empty table that nothing cleans. */
  lemma LastIsStuck(w: World, c: Cache, p: nat, u: nat)
    requires w.Ok() && Sane(w, c) && Stuck(w, c, p, u) && u in c.uds && c.uds.Keys == {u} && c.pending == map[]
    ensures Stuck(w, Clear(c, u), p, u)
  {
    ClearKeepsWillClean(w, c, u, p);
    assert forall v :: v in Holds(c, p) ==> v in c.uds;
    assert c.slots[p].uds - {u} == {};
  }

  lemma StuckStays(w: World, c: Cache, p: nat, u: nat, e: Event, c': Cache)
    requires w.Ok() && Sane(w, c) && Stuck(w, c, p, u) && CollectStep(w, c, e, c')
    requires e == Clearing(u) ==> c.uds.Keys == {u} && c.pending == map[]
    ensures Stuck(w, c', p, u)
  {
    match e
    case Clearing(v) =>
      ClearKeepsWillClean(w, c, v, p);
      if v == u {
        LastIsStuck(w, c, p, u);
      }
    case Finalizing(v) =>
      FinalizeAt(w, c, v, p);
      FinalizeAddsNone(w, c, v, p);
  }

  /** One way to collect everything, after which the stuck table is still there. */
  lemma {:induction false} CollectAll(w: World, c: Cache, p: nat, u: nat) returns (es: seq<Event>, cs: seq<Cache>)
    requires w.Ok() && Sane(w, c) && Stuck(w, c, p, u)
    ensures Collecting(w, c, es, cs) && AllCollected(cs[|es|]) && p in cs[|es|].slots
    decreases 2 * |c.uds| + |c.pending|
  {
    if AllCollected(c) {
      es, cs := [], [c];
    } else {
      var e, c' := NextCollected(w, c, u);
      StuckStays(w, c, p, u, e, c');
      StepKeepsSane(w, c, e, c');
      var es', cs' := CollectAll(w, c', p, u);
      es, cs := [e] + es', [c] + cs';
      CollectOneMore(w, c, e, c', es', cs');
    }
  }

  lemma CollectOneMore(w: World, c: Cache, e: Event, c': Cache, es: seq<Event>, cs: seq<Cache>)
    requires w.Ok() && CollectStep(w, c, e, c') && Collecting(w, c', es, cs)
    ensures Collecting(w, c, [e] + es, [c] + cs) && ([c] + cs)[|[e] + es|] == cs[|es|]
  {
    var fs, ds := [e] + es, [c] + cs;
    forall i | 0 <= i < |fs| ensures CollectStep(w, ds[i], fs[i], ds[i + 1]) {
      if i > 0 {
        assert CollectStep(w, cs[i - 1], es[i - 1], cs[i]);
      }
    }
  }

  /**
    Collecting everything leaves nothing, in whatever order userdata are cleared and finalized, exactly when every
    userdata in a collision table has a finalizer that reaches the table and every empty one has a finalizer to come.
   */
  lemma NothingIsLeftIff(w: World, c: Cache)
    requires w.Ok() && Sane(w, c)
    ensures (forall es, cs :: Collecting(w, c, es, cs) && AllCollected(cs[|es|]) ==> NothingLeft(cs[|es|]))
       <==> AllCleanable(w, c)
  {
    if AllCleanable(w, c) {
      forall es, cs | Collecting(w, c, es, cs) && AllCollected(cs[|es|]) ensures NothingLeft(cs[|es|]) {
        CollectingKeeps(w, c, es, cs, |es|);
        LeftIffUncleanable(w, cs[|es|]);
      }
    } else {
      var p, u := UncleanableIsStuck(w, c);
      var es, cs := CollectAll(w, c, p, u);
    }
  }

  lemma UncleanableIsStuck(w: World, c: Cache) returns (p: nat, u: nat)
    requires w.Ok() && Sane(w, c) && !AllCleanable(w, c)
    ensures Stuck(w, c, p, u)
  {
    p :| p in c.slots && !Cleanable(w, c, p);
    if v :| v in c.slots[p].uds && !(v in c.uds && Cleans(w, c.uds[v], p)) {
      assert v in Holds(c, p);
      u := v;
    } else {
      u := 0;
    }
  }

  /** At every point of every run, contained or not. */
  lemma NothingIsLeftInRunsIff(w: World, es: seq<Event>, cs: seq<Cache>, n: nat)
    requires w.Ok() && IsRun(w, es, cs) && n <= |es|
    ensures (forall fs, ds :: Collecting(w, cs[n], fs, ds) && AllCollected(ds[|fs|]) ==> NothingLeft(ds[|fs|]))
       <==> AllCleanable(w, cs[n])
  {
    FlagsInEveryRun(w, es, cs, n);
    NothingIsLeftIff(w, cs[n]);
  }

  /** A valid cache is one of these. */
  lemma ValidIsCleanable(w: World, c: Cache)
    requires Valid(w, c)
    ensures AllCleanable(w, c)
  {
    forall p | p in c.slots ensures Cleanable(w, c, p) {
      assert Tended(w, c, p);
      forall u | u in Holds(c, p) ensures u in c.uds && (c.uds[u].collision ==> Cleans(w, c.uds[u], p)) {
        FinalizerReaches(w, c.uds[u], p);
      }
      if c.slots[p].Table? && c.slots[p].uds == {} {
        var v :| v in c.pending && c.pending[v].collision && w.Covers(c.pending[v], p);
        FinalizerReaches(w, c.pending[v], p);
      }
    }
  }
}
