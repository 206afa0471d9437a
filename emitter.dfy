/**
 * The event-dispatch core, kept abstract: a registry from event name to the
 * listeners registered for it, in registration order. Only the four
 * operations the bridge uses are modelled: `on`, `off`,
 * `removeAllListeners` and `emit`. A listener is an opaque identity.
 */
module Emitter {
  import opened Wrappers
  import Lists

  type ListenerId = nat
  type Registry = map<string, seq<ListenerId>>

  /** The listeners `emit(name, ...)` calls, in order. */
  function ListenersOf(reg: Registry, name: string): seq<ListenerId> {
    if name in reg then reg[name] else []
  }

  /** `on(name, fn)`: appends, without deduplication. */
  function On(reg: Registry, name: string, fn: ListenerId): (r: Registry)
    ensures ListenersOf(r, name) == ListenersOf(reg, name) + [fn]
    ensures forall other :: other != name ==> ListenersOf(r, other) == ListenersOf(reg, other)
  {
    reg[name := ListenersOf(reg, name) + [fn]]
  }

  /** `off(name)` drops every listener of `name`; `off(name, fn)` drops
      every registration of `fn` under `name` and keeps the rest in order. */
  function Off(reg: Registry, name: string, fn: Option<ListenerId>): (r: Registry)
    ensures fn.None? ==> ListenersOf(r, name) == []
    ensures fn.Some? ==> fn.value !in ListenersOf(r, name)
    ensures fn.Some? ==> multiset(ListenersOf(r, name)) == multiset(ListenersOf(reg, name))[fn.value := 0]
    ensures forall other :: other != name ==> ListenersOf(r, other) == ListenersOf(reg, other)
  {
    match fn
    case None => reg[name := []]
    case Some(f) => reg[name := Lists.Without(ListenersOf(reg, name), f)]
  }

  /** `removeAllListeners()`: no name has a listener any more. */
  function RemoveAll(reg: Registry): (r: Registry)
    ensures forall name :: ListenersOf(r, name) == []
  {
    map[]
  }

  /** Removing a listener keeps the other listeners of that name in their
      order: whatever stood before one of its registrations still stands
      before whatever stood after it, however many registrations there are. */
  lemma OffKeepsOthersInOrder(reg: Registry, name: string, before: seq<ListenerId>, fn: ListenerId, after: seq<ListenerId>)
    requires ListenersOf(reg, name) == before + [fn] + after
    ensures ListenersOf(Off(reg, name, Some(fn)), name) == Lists.Without(before, fn) + Lists.Without(after, fn)
  {
    Lists.WithoutConcat(before + [fn], after, fn);
    Lists.WithoutConcat(before, [fn], fn);
  }

  /** `off` undoes `on` for a listener that was not registered under that name. */
  lemma OffUndoesOn(reg: Registry, name: string, fn: ListenerId)
    requires fn !in ListenersOf(reg, name)
    ensures ListenersOf(Off(On(reg, name, fn), name, Some(fn)), name) == ListenersOf(reg, name)
  {
    Lists.WithoutConcat(ListenersOf(reg, name), [fn], fn);
  }

  /** `off` of a listener that is not registered changes nothing observable. */
  lemma OffUnknownIsNoOp(reg: Registry, name: string, fn: ListenerId)
    requires fn !in ListenersOf(reg, name)
    ensures forall n :: ListenersOf(Off(reg, name, Some(fn)), n) == ListenersOf(reg, n)
  {
  }
}
