/**
  Who owns an object, and whether it may be changed: what each userdata has been told, whatever else has been pushed.
*/
module UserdataOwners {
  import opened Wrappers

  import opened UserdataModel
  import opened UserdataCollector
  import opened UserdataAliasing
  import opened UserdataIdentity

  /** The userdata that a push hands out. */
  function Subject(c: Cache, e: Event): nat
    requires e.Pushing?
  {
    if e.found.Some? then e.found.value else c.next
  }

  /** The owner named last for the userdata since it was added, up to event `n`. */
  ghost function LastOwner(es: seq<Event>, cs: seq<Cache>, u: nat, n: nat): Owner
    requires n <= |es| <= |cs|
  {
    if n == 0 then NoChange
    else
      match es[n - 1]
      case Pushing(_, _, _, owner, found) =>
        if Subject(cs[n - 1], es[n - 1]) != u then LastOwner(es, cs, u, n - 1)
        else if found.None? || owner != NoChange then owner
        else LastOwner(es, cs, u, n - 1)
      case Owning(v, owner) => if v == u && owner != NoChange then owner else LastOwner(es, cs, u, n - 1)
      case _ => LastOwner(es, cs, u, n - 1)
  }

  /** All pushes of the userdata since it was added, up to event `n`, were of a const object. */
  ghost predicate AlwaysConst(es: seq<Event>, cs: seq<Cache>, u: nat, n: nat)
    requires n <= |es| <= |cs|
  {
    n > 0
    && match es[n - 1]
       case Pushing(_, _, isConst, _, found) =>
         if Subject(cs[n - 1], es[n - 1]) != u then AlwaysConst(es, cs, u, n - 1)
         else isConst && (found.None? || AlwaysConst(es, cs, u, n - 1))
       case _ => AlwaysConst(es, cs, u, n - 1)
  }

  /** The others keep what they have been told. */
  ghost predicate OthersKeep(c: Cache, c': Cache, u: nat) {
    forall v :: v in c'.uds && v != u ==>
      v in c.uds && c'.uds[v].gc == c.uds[v].gc && c'.uds[v].isConst == c.uds[v].isConst
  }

  lemma AddedFlags(w: World, c: Cache, o: nat, t: nat, isConst: bool, gc: bool)
    requires w.Ok() && t in w.bases
    ensures var c' := AddPtr(w, c, o, t, isConst, gc);
            && c.next in c'.uds && c'.uds[c.next].gc == gc && c'.uds[c.next].isConst == isConst
            && OthersKeep(c, c', c.next)
  {
    NewUdKeepsFlags(w, c, o, t, isConst, gc);
  }

  lemma AdjustedFlags(w: World, c: Cache, u: nat, o: nat, t: nat, isConst: bool)
    requires w.Ok() && t in w.bases && u in c.uds && c.uds[u].typ in w.bases
    ensures var c' := Adjust(w, c, u, o, t, isConst);
            && u in c'.uds && c'.uds[u].gc == c.uds[u].gc && c'.uds[u].isConst == (c.uds[u].isConst && isConst)
            && OthersKeep(c, c', u)
  {
    if !Narrower(w, c.uds[u].typ, t) {
      var c1 := c.(uds := c.uds[u := c.uds[u].(obj := o, typ := t, isConst := c.uds[u].isConst && isConst)]);
      AddEachFlags(w, c1, o, w.All(t), u);
    }
  }

  /** A push tells its userdata, and no other, who owns it and whether it is const. */
  lemma PushedFlags(w: World, c: Cache, e: Event)
    requires w.Ok() && e.Pushing? && Possible(w, c, e)
    ensures var c' := After(w, c, e);
            var u := Subject(c, e);
            && u in c'.uds && OthersKeep(c, c', u) && (e.found.Some? ==> u in c.uds)
            && (c'.uds[u].gc <==> if e.found.None? || e.owner != NoChange then e.owner == OwnedByLua else c.uds[u].gc)
            && (c'.uds[u].isConst <==> e.isConst && (e.found.None? || c.uds[u].isConst))
  {
    FoundFits(w, c, e.o, e.t, e.found);
    if e.found.None? {
      AddedFlags(w, c, e.o, e.t, e.isConst, e.owner == OwnedByLua);
    } else {
      AdjustedFlags(w, c, e.found.value, e.o, e.t, e.isConst);
    }
  }

  /** No other event makes a userdata, or one const. */
  lemma OtherFlags(w: World, c: Cache, e: Event, u: nat)
    requires w.Ok() && !e.Pushing? && Possible(w, c, e) && u in After(w, c, e).uds
    ensures u in c.uds && After(w, c, e).uds[u].isConst == c.uds[u].isConst
    ensures After(w, c, e).uds[u].gc
       <==> if e.Owning? && e.ud == u && e.owner != NoChange then e.owner == OwnedByLua else c.uds[u].gc
  {
    match e
    case Owning(_, _) =>
    case Clearing(_) =>
    case Finalizing(v) => FinalizeTakesNone(w, c, v);
  }

  /**
    At every point of every run: Lua may collect the object with a userdata exactly when Lua was the owner named last
    for it, and a userdata is const exactly when every push of it was.
   */
  lemma {:induction false} TellsWhatItWasTold(w: World, es: seq<Event>, cs: seq<Cache>, n: nat, u: nat)
    requires w.Ok() && IsRun(w, es, cs) && n <= |es| && u in cs[n].uds
    ensures cs[n].uds[u].gc <==> LastOwner(es, cs, u, n) == OwnedByLua
    ensures cs[n].uds[u].isConst <==> AlwaysConst(es, cs, u, n)
    decreases n
  {
    if n > 0 {
      var c, e := cs[n - 1], es[n - 1];
      assert Possible(w, c, e) && cs[n] == After(w, c, e);
      if e.Pushing? {
        PushedFlags(w, c, e);
      } else {
        OtherFlags(w, c, e, u);
      }
      if u in c.uds {
        TellsWhatItWasTold(w, es, cs, n - 1, u);
      }
    }
  }
}
