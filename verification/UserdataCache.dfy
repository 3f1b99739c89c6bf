/**
  The userdata cache as the library keeps it: a weak table updated in place, with the operations that
  push a pointer and those that the collector runs.  Each is proved to compute the function of the cache's value that
  the properties are proved of.
*/
module UserdataCache {
  import opened Wrappers

  import opened ClassGraph
  import opened TypeLists
  import opened UserdataModel
  import opened UserdataCollector

  class WeakTable {
    var uds: map<nat, Ud>
    var slots: map<nat, Slot>
    var anchors: set<nat>
    var next: nat
    ghost var pending: map<nat, Ud>

    ghost function Value(): Cache
      reads this
    {
      Cache(uds, pending, slots, anchors, next)
    }

    constructor ()
      ensures Value() == EMPTY
    {
      uds, slots, anchors, next, pending := map[], map[], {}, 0, map[];
    }

    method FlagCollision(u: nat)
      modifies this`uds
      ensures uds == Flagged(old(uds), u)
    {
      if u in uds {
        uds := uds[u := uds[u].(collision := true)];
      }
    }

    method AddPtrIfRequired(p: nat, u: nat)
      modifies this
      ensures Value() == AddIfRequired(old(Value()), p, u)
    {
      if p !in slots {
        slots := slots[p := Single(u)];
      } else {
        match slots[p]
        case Single(found) =>
          if found != u {
            slots := slots[p := Table(next, {found, u})];
            anchors := anchors + {next};
            next := next + 1;
            FlagCollision(u);
            FlagCollision(found);
          }
        case Table(id, held) =>
          if u !in held {
            slots := slots[p := Table(id, held + {u})];
            FlagCollision(u);
          }
      }
    }

    /** `Add_ptr` over the flattened list of bases. */
    method AddBases(w: World, o: nat, list: seq<nat>, u: nat)
      modifies this
      ensures Value() == AddEach(w, old(Value()), o, list, u)
    {
      var i := 0;
      while i < |list|
        invariant i <= |list|
        invariant AddEach(w, Value(), o, list[i..], u) == AddEach(w, old(Value()), o, list, u)
      {
        assert list[i..][1..] == list[i + 1..];
        AddPtrIfRequired(w.at(o, list[i]), u);
        i := i + 1;
      }
    }

    method NewUserdata(o: nat, t: nat, isConst: bool, owner: Owner) returns (u: nat)
      modifies this`uds, this`next
      ensures u == old(next) && next == old(next) + 1
      ensures uds == old(uds)[u := Ud(o, t, isConst, owner == OwnedByLua, false)]
    {
      u := next;
      next := next + 1;
      uds := uds[u := Ud(o, t, isConst, false, false)];
      if owner != NoChange {
        uds := uds[u := uds[u].(gc := owner == OwnedByLua)];
      }
    }

    method Add(w: World, o: nat, t: nat, isConst: bool, owner: Owner) returns (u: nat)
      requires w.Ok() && t in w.bases
      modifies this
      ensures Value() == AddPtr(w, old(Value()), o, t, isConst, owner == OwnedByLua) && u == old(next)
    {
      u := NewUserdata(o, t, isConst, owner);
      AddPtrIfRequired(w.at(o, t), u);
      AddBases(w, o, w.All(t), u);
    }

    method ResetMetatable(w: World, u: nat, o: nat, t: nat, isConst: bool)
      requires w.Ok() && t in w.bases && u in uds
      modifies this
      ensures Value() == Reset(w, old(Value()), u, o, t, isConst)
    {
      uds := uds[u := uds[u].(obj := o, typ := t, isConst := isConst)];
      AddBases(w, o, w.All(t), u);
    }

    /** `is_correct_ud`, for a userdata that passes its test or not. */
    method AdjustIfCorrect(w: World, u: nat, o: nat, t: nat, isConst: bool) returns (correct: bool)
      requires w.Ok() && t in w.bases && u in uds && uds[u].typ in w.bases
      modifies this
      ensures correct == Fits(w, old(Value()), u, t)
      ensures Value() == if correct then Adjust(w, old(Value()), u, o, t, isConst) else old(Value())
    {
      var wasConst := uds[u].isConst;
      if uds[u].typ == t || t in w.All(uds[u].typ) {
        if !isConst && wasConst {
          uds := uds[u := uds[u].(isConst := false)];
        }
        correct := true;
      } else if uds[u].typ in w.All(t) {
        ResetMetatable(w, u, o, t, wasConst && isConst);
        correct := true;
      } else {
        correct := false;
      }
    }

    /** A userdata of the set whose class is a base of `t`, if there is one. */
    method PickWider(w: World, held: set<nat>, t: nat) returns (r: Option<nat>)
      requires w.Ok() && t in w.bases
      ensures r.Some? ==> r.value in held && r.value in uds && Wider(w, uds[r.value].typ, t)
      ensures r.None? ==> forall u :: u in held && u in uds ==> !Wider(w, uds[u].typ, t)
    {
      var rest := held;
      while rest != {}
        invariant rest <= held
        invariant forall u :: u in held && u in uds && u !in rest ==> !Wider(w, uds[u].typ, t)
      {
        var u :| u in rest;
        if u in uds && uds[u].typ in w.All(t) {
          return Some(u);
        }
        rest := rest - {u};
      }
      return None;
    }

    /** `Has_a_root_entry` over the list of root bases. */
    method RootEntry(w: World, o: nat, t: nat, roots: seq<nat>) returns (r: Option<nat>)
      requires w.Ok() && t in w.bases
      ensures FoundAtRoots(w, Value(), o, t, roots, r)
    {
      var i := 0;
      while i < |roots|
        invariant i <= |roots|
        invariant forall x :: FoundAtRoots(w, Value(), o, t, roots[i..], x) ==> FoundAtRoots(w, Value(), o, t, roots, x)
      {
        assert roots[i..][1..] == roots[i + 1..];
        var p := w.at(o, roots[i]);
        if w.at(o, t) != p && p in slots {
          var held := match slots[p] case Single(u) => {u} case Table(_, us) => us;
          assert held == Holds(Value(), p);
          r := PickWider(w, held, t);
          if r.Some? {
            assert r.value in WiderAt(w, Value(), p, t);
            return;
          }
        }
        assert p == w.at(o, t) || WiderAt(w, Value(), p, t) == {};
        i := i + 1;
      }
      r := None;
    }

    method CheckRoots(w: World, o: nat, t: nat, isConst: bool) returns (r: Option<nat>)
      requires w.Ok() && t in w.bases
      modifies this
      ensures FoundAtRoots(w, old(Value()), o, t, w.Roots(t), r)
      ensures r.None? ==> Value() == old(Value())
      ensures r.Some? ==> r.value in old(uds)
      ensures r.Some? ==> Value() == Reset(w, old(Value()), r.value, o, t, old(uds)[r.value].isConst && isConst)
    {
      r := RootEntry(w, o, t, w.Roots(t));
      if r.Some? {
        RootsFindWider(w, Value(), o, t, w.Roots(t), r);
        ResetMetatable(w, r.value, o, t, uds[r.value].isConst && isConst);
      }
    }

    /** Goes through a collision table until a userdata is correct. */
    method FindInTable(w: World, held: set<nat>, o: nat, t: nat, isConst: bool) returns (r: Option<nat>)
      requires w.Ok() && t in w.bases && forall u :: u in held ==> u in uds && uds[u].typ in w.bases
      modifies this
      ensures r.Some? ==> r.value in held && Fits(w, old(Value()), r.value, t)
      ensures r.Some? ==> Value() == Adjust(w, old(Value()), r.value, o, t, isConst)
      ensures r.None? ==> Value() == old(Value()) && forall u :: u in held ==> !Fits(w, old(Value()), u, t)
    {
      var rest := held;
      while rest != {}
        invariant rest <= held && Value() == old(Value())
        invariant forall u :: u in held && u !in rest ==> !Fits(w, old(Value()), u, t)
      {
        var u :| u in rest;
        var correct := AdjustIfCorrect(w, u, o, t, isConst);
        if correct {
          return Some(u);
        }
        rest := rest - {u};
      }
      return None;
    }

    method FindUd(w: World, o: nat, t: nat, isConst: bool) returns (r: Option<nat>)
      requires w.Ok() && t in w.bases && Consistent(w, Value())
      modifies this
      ensures Found(w, old(Value()), o, t, r)
      ensures r.None? ==> Value() == old(Value())
      ensures r.Some? ==> r.value in old(uds) && old(uds)[r.value].typ in w.bases
      ensures r.Some? ==> Value() == Adjust(w, old(Value()), r.value, o, t, isConst)
    {
      ghost var c := Value();
      var p := w.at(o, t);
      if p !in slots {
        r := CheckRoots(w, o, t, isConst);
        RootsAreWider(w, c, o, t, r);
      } else {
        match slots[p]
        case Single(u) =>
          assert u in Holds(c, p);
          var correct := AdjustIfCorrect(w, u, o, t, isConst);
          if correct {
            r := Some(u);
          } else {
            r := CheckRoots(w, o, t, isConst);
            RootsAreWider(w, c, o, t, r);
          }
        case Table(_, held) =>
          assert held == Holds(c, p);
          r := FindInTable(w, held, o, t, isConst);
      }
    }

    /** Pushes an object: finds its userdata or adds one. */
    method PushPointer(w: World, o: nat, t: nat, isConst: bool, owner: Owner) returns (u: nat, ghost found: Option<nat>)
      requires w.Ok() && t in w.bases && Consistent(w, Value())
      modifies this
      ensures Found(w, old(Value()), o, t, found)
      ensures Value() == Push(w, old(Value()), o, t, isConst, owner, found)
      ensures u == if found.Some? then found.value else old(next)
    {
      var r := FindUd(w, o, t, isConst);
      found := r;
      FoundFits(w, old(Value()), o, t, found);
      if r.None? {
        u := Add(w, o, t, isConst, owner);
      } else {
        u := r.value;
        SetOwnerIfChange(u, owner);
      }
    }

    method SetOwnerIfChange(u: nat, owner: Owner)
      modifies this
      ensures Value() == SetOwner(old(Value()), u, owner)
    {
      if owner != NoChange && u in uds {
        uds := uds[u := uds[u].(gc := owner == OwnedByLua)];
      }
    }

    method GcCleanTable(p: nat)
      modifies this
      ensures Value() == CleanSlot(old(Value()), p)
    {
      if p in slots && slots[p].Table? && slots[p].uds == {} {
        anchors := anchors - {slots[p].id};
        slots := slots - {p};
      }
    }

    /** `gc_table_cleaner`: the bases in the list, then, for each, its own bases. */
    method CleanBases(w: World, o: nat, t: nat, list: seq<nat>, ghost bound: nat)
      requires w.Ok() && forall b :: b in list ==> b in w.bases && w.rank[b] < bound
      modifies this
      ensures Value() == CleanSlots(old(Value()), BaseAddresses(w, o, t, list, bound))
      decreases bound, |list|
    {
      if list != [] {
        ghost var c := Value();
        ghost var first := if w.at(o, t) != w.at(o, list[0]) then [w.at(o, list[0])] else [];
        if w.at(o, t) != w.at(o, list[0]) {
          GcCleanTable(w.at(o, list[0]));
          assert first[1..] == [];
        }
        assert Value() == CleanSlots(c, first);
        CleanBases(w, o, t, list[1..], bound);
        CleanBases(w, o, list[0], w.bases[list[0]], w.rank[list[0]]);
        ghost var second := BaseAddresses(w, o, t, list[1..], bound);
        CleanSlotsAppend(c, first, second);
        CleanSlotsAppend(c, first + second, BaseAddresses(w, o, list[0], w.bases[list[0]], w.rank[list[0]]));
      }
    }

    /** The finalizer of a userdata, which carries its own record. */
    method Collect(w: World, u: nat, ud: Ud)
      requires w.Ok() && ud.typ in w.bases && u in pending && pending[u] == ud
      modifies this
      ensures Value() == Finalize(w, old(Value()), u)
    {
      pending := pending - {u};
      if ud.collision {
        ghost var c := Value();
        GcCleanTable(w.at(ud.obj, ud.typ));
        CleanBases(w, ud.obj, ud.typ, w.bases[ud.typ], w.rank[ud.typ]);
        assert CleanedBy(w, ud)[1..] == BaseAddresses(w, ud.obj, ud.typ, w.bases[ud.typ], w.rank[ud.typ]);
      }
    }
  }

  lemma RootsAreWider(w: World, c: Cache, o: nat, t: nat, r: Option<nat>)
    requires w.Ok() && t in w.bases && FoundAtRoots(w, c, o, t, w.Roots(t), r)
    ensures r.Some? ==> r.value in c.uds && c.uds[r.value].typ in w.bases && !Narrower(w, c.uds[r.value].typ, t)
  {
    RootsFindWider(w, c, o, t, w.Roots(t), r);
    if r.Some? {
      var s := c.uds[r.value].typ;
      AllBasesIsProperBases(w.bases, w.rank, t, s);
      AllBasesIsProperBases(w.bases, w.rank, s, t);
    }
  }

  lemma {:induction false} CleanSlotsAppend(c: Cache, ps: seq<nat>, qs: seq<nat>)
    ensures CleanSlots(c, ps + qs) == CleanSlots(CleanSlots(c, ps), qs)
    decreases |ps|
  {
    if ps == [] {
      assert ps + qs == qs;
    } else {
      assert (ps + qs)[1..] == ps[1..] + qs;
      CleanSlotsAppend(CleanSlot(c, ps[0]), ps[1..], qs);
    }
  }
}
