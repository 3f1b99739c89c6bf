/**
  The reference class and the registries of Lua. Where Lua picks a free slot, the pick is a parameter, and a stack
  element is passed as the value found there.
*/
module LuaRef {
  import opened Wrappers
  import M = LuaRefModel

  class Registries {
    var slots: M.Slots

    constructor ()
      ensures slots == map[]
    {
      slots := map[];
    }

    /** `luaL_ref` */
    method Ref(vm: M.State, value: M.LuaValue, free: int) returns (ref: int)
      requires M.Free(slots, vm, free)
      modifies this
      ensures M.Held(slots, M.Handle(Some(vm), ref)) == M.Register(old(slots), vm, value, free)
    {
      if value == M.Nil {
        return M.REFNIL;
      }
      slots := slots[M.Slot(vm.registry, free) := value];
      return free;
    }

    /** `luaL_unref`, which a slot that is not in use must not be passed to. */
    method Unref(vm: M.State, ref: int)
      requires M.Slot(vm.registry, ref) in slots
      modifies this
      ensures slots == old(slots) - {M.Slot(vm.registry, ref)}
    {
      slots := slots - {M.Slot(vm.registry, ref)};
    }
  }

  class LuaRef {
    const host: Registries
    /** The kind of value referred to. */
    const kind: int
    var lua: Option<M.State>
    var ref: int

    constructor (host: Registries, kind: int, lua: Option<M.State>)
      ensures this.host == host && this.kind == kind && Value() == M.Handle(lua, M.NOREF)
    {
      this.host, this.kind, this.lua, this.ref := host, kind, lua, M.NOREF;
    }

    constructor Copy(rhs: LuaRef, free: int)
      requires rhs.Live()
      requires M.Valid(rhs.Value()) ==> M.Free(rhs.host.slots, rhs.lua.value, free)
      modifies rhs.host
      ensures host == rhs.host && kind == rhs.kind
      ensures M.Held(host.slots, Value()) == M.Copy(old(rhs.host.slots), old(rhs.Value()), free)
    {
      this.host, this.kind, this.lua, this.ref := rhs.host, rhs.kind, None, M.NOREF;
      new;
      var valid := rhs.IsValid();
      if valid {
        this.lua := rhs.lua;
        var value := host.slots[M.Slot(rhs.lua.value.registry, rhs.ref)];
        this.ref := host.Ref(rhs.lua.value, value, free);
      }
    }

    ghost function Value(): M.Handle
      reads this
    {
      M.Handle(lua, ref)
    }

    ghost predicate Live()
      reads this, host
    {
      M.Live(host.slots, Value())
    }

    method IsValid() returns (valid: bool)
      ensures valid <==> M.Valid(Value())
    {
      valid := lua.Some? && ref != M.REFNIL && ref != M.NOREF;
    }

    method Release()
      requires Live()
      modifies this`ref, host
      ensures M.Held(host.slots, Value()) == M.Release(old(host.slots), old(Value()))
    {
      var valid := IsValid();
      if valid {
        host.Unref(lua.value, ref);
      }
      ref := M.NOREF;
    }

    method Swap(rhs: LuaRef)
      modifies this`lua, this`ref, rhs`lua, rhs`ref
      ensures Value() == old(rhs.Value()) && rhs.Value() == old(Value())
    {
      var l, r := rhs.lua, rhs.ref;
      rhs.lua := lua;
      rhs.ref := ref;
      lua := l;
      ref := r;
    }

    /** `operator =`; `rhs` may be this reference itself. */
    method Assign(rhs: LuaRef, free: int)
      requires Live() && rhs.Live() && rhs.host == host && rhs.kind == kind
      requires M.Valid(rhs.Value()) ==> M.Free(host.slots, rhs.lua.value, free)
      modifies this`lua, this`ref, host
      ensures M.Held(host.slots, Value()) == M.Assign(old(host.slots), old(Value()), old(rhs.Value()), free)
    {
      var temp := new LuaRef.Copy(rhs, free);
      temp.Swap(this);
      temp.Release();
    }

    /** `set_ref` with a slot other than the one held. */
    method SetRef(vm: M.State, newRef: int)
      requires Live()
      modifies this`lua, this`ref, host
      ensures Value() == M.Handle(Some(vm), newRef)
      ensures host.slots == M.Release(old(host.slots), old(Value())).slots
    {
      Release();
      ref := newRef;
      lua := Some(vm);
    }

    /**
      `pull_if_valid`, `found` being what is on top of the stack, none when the stack is empty; and `lua_get`, where
      it is what is at a position of the stack.
     */
    method PullIfValid(vm: M.State, found: Option<M.LuaValue>, free: int) returns (ok: bool)
      requires Live() && M.Free(host.slots, vm, free)
      modifies this`lua, this`ref, host
      ensures M.Held(host.slots, Value()) == M.Pull(old(host.slots), old(Value()), vm, found, kind, free)
      ensures ok <==> M.Pullable(found, kind)
    {
      if found.None? {
        return false;
      }
      var value := found.value;
      if value != M.Nil && value.kind == kind {
        var newRef := host.Ref(vm, value, free);
        SetRef(vm, newRef);
        return true;
      }
      if value == M.Nil {
        Release();
        return true;
      }
      return false;
    }
  }
}
