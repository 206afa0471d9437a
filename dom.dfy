/**
 * The global scope's event-listener list, as section 2.7 of the WHATWG DOM
 * Standard describes it: an entry is identified by its event type, its
 * callback and its capture flag. Adding an entry that is already present
 * does nothing; removing one that is absent does nothing.
 */
module Dom {
  import Lists

  /** A function object registered as a listener; only its identity matters. */
  class Handler {
    constructor () {}
  }

  datatype Registration = Registration(kind: string, callback: Handler, capture: bool)

  /** `addEventListener(kind, callback, { capture })`. */
  function Added(regs: seq<Registration>, r: Registration): (out: seq<Registration>)
    ensures r in out
    ensures forall k :: 0 <= k < |regs| ==> regs[k] in out
    ensures forall k :: 0 <= k < |out| ==> out[k] in regs || out[k] == r
    ensures Lists.NoDuplicates(regs) ==> Lists.NoDuplicates(out)
  {
    if r in regs then regs else regs + [r]
  }

  /** `removeEventListener(kind, callback, capture)`: an entry matches only
      when all three agree. */
  function Removed(regs: seq<Registration>, r: Registration): (out: seq<Registration>)
    ensures r !in out
    ensures forall k :: 0 <= k < |regs| && regs[k] != r ==> regs[k] in out
    ensures forall k :: 0 <= k < |out| ==> out[k] in regs
    ensures Lists.NoDuplicates(regs) ==> Lists.NoDuplicates(out)
  {
    NoDuplicatesWithout(regs, r);
    Lists.Without(regs, r)
  }

  lemma {:induction false} NoDuplicatesWithout(regs: seq<Registration>, r: Registration)
    ensures Lists.NoDuplicates(regs) ==> Lists.NoDuplicates(Lists.Without(regs, r))
    decreases |regs|
  {
    if regs != [] && Lists.NoDuplicates(regs) {
      assert Lists.NoDuplicates(regs[1..]);
      NoDuplicatesWithout(regs[1..], r);
      var rest := Lists.Without(regs[1..], r);
      if regs[0] != r {
        assert regs[0] !in regs[1..];
        assert regs[0] !in rest;
        assert Lists.Without(regs, r) == [regs[0]] + rest;
      }
    }
  }

  /** Whether `callback` is registered for `kind`, with either capture flag. */
  predicate Listening(regs: seq<Registration>, kind: string, callback: Handler) {
    exists k :: 0 <= k < |regs| && regs[k].kind == kind && regs[k].callback == callback
  }

  /** The global object on which the bridge registers its two handlers. */
  class GlobalScope {
    var registrations: seq<Registration>

    ghost predicate Valid()
      reads this
    {
      Lists.NoDuplicates(registrations)
    }

    constructor ()
      ensures Valid() && registrations == []
    {
      registrations := [];
    }

    method AddEventListener(kind: string, callback: Handler, capture: bool)
      requires Valid()
      modifies this
      ensures Valid()
      ensures registrations == Added(old(registrations), Registration(kind, callback, capture))
    {
      registrations := Added(registrations, Registration(kind, callback, capture));
    }

    method RemoveEventListener(kind: string, callback: Handler, capture: bool)
      requires Valid()
      modifies this
      ensures Valid()
      ensures registrations == Removed(old(registrations), Registration(kind, callback, capture))
    {
      registrations := Removed(registrations, Registration(kind, callback, capture));
    }
  }

  /** Removal with the wrong capture flag leaves the entry registered. */
  lemma RemovalNeedsCaptureFlag(regs: seq<Registration>, kind: string, callback: Handler)
    requires Registration(kind, callback, true) in regs
    ensures Registration(kind, callback, true) in Removed(regs, Registration(kind, callback, false))
    ensures Listening(Removed(regs, Registration(kind, callback, false)), kind, callback)
  {
  }

  /** Removing an entry that is already gone changes nothing. */
  lemma RemovedTwice(regs: seq<Registration>, r: Registration)
    ensures Removed(Removed(regs, r), r) == Removed(regs, r)
  {
  }
}
