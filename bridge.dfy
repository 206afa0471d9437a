/**
 * The bridge built by `SimplyConsole(con)`: an object that exposes every
 * member of the host logging object `con`, turns each call of a host method
 * into an event named after it, and reports uncaught errors and unhandled
 * promise rejections as `error` events.
 */
module Bridge {
  import opened Wrappers
  import Emitter
  import Dom
  import Recursion

  type FnId = nat

  /** A JavaScript value, as far as the bridge tells values apart: only
      whether it is a function matters, and a function is known by identity. */
  datatype JsValue = Undefined | Func(id: FnId) | Data(datum: int)

  /** The host logging object `con`: its own enumerable members. */
  class Console {
    var members: map<string, JsValue>

    constructor (members: map<string, JsValue>)
      ensures this.members == members
    {
      this.members := members;
    }

    /** `con[key]`, which is `undefined` for a name `con` lacks. */
    function Get(key: string): JsValue
      reads this
    {
      if key in members then members[key] else Undefined
    }

    /** `con[key] = v`. */
    method Set(key: string, v: JsValue)
      modifies this
      ensures members == old(members)[key := v]
    {
      members := members[key := v];
    }
  }

  /** The capture flag of `EventOptions`. */
  const Capture := true

  const ErrorEvent := "error"
  const RejectionEvent := "unhandledrejection"

  /** The event objects the environment hands to the two global handlers. */
  datatype UncaughtError = UncaughtError(error: JsValue)
  datatype UnhandledRejection = UnhandledRejection(reason: JsValue)

  datatype OwnMethod = OnMethod | OffMethod | CleanupMethod

  /** What the bridge holds under one name. */
  datatype Slot =
    | Own(which: OwnMethod)          // defined by the bridge itself
    | Forwarder(original: FnId)      // calls `original`, then emits
    | Accessor                       // reads and writes through to `con`

  /** The members the bridge defines before it looks at `con`. */
  const OwnMembers: map<string, Slot> :=
    map["on" := Own(OnMethod), "off" := Own(OffMethod), "cleanup" := Own(CleanupMethod)]

  /** Decided from a member's value when the bridge is built. */
  function Classify(v: JsValue): Slot {
    if v.Func? then Forwarder(v.id) else Accessor
  }

  /** The bridge's members once the host names in `done` have been visited. */
  function TableFor(host: map<string, JsValue>, done: set<string>): map<string, Slot>
    requires done <= host.Keys
  {
    map k | k in OwnMembers.Keys + done :: if k in OwnMembers then OwnMembers[k] else Classify(host[k])
  }

  /** The bridge's members once the construction loop has run. */
  function Table(host: map<string, JsValue>): (t: map<string, Slot>)
    ensures t.Keys == host.Keys + OwnMembers.Keys
    ensures forall k :: k in OwnMembers ==> t[k] == OwnMembers[k]
    ensures forall k :: k in host && k !in OwnMembers ==>
              (t[k].Forwarder? <==> host[k].Func?)
    ensures forall k :: k in host && k !in OwnMembers && host[k].Func? ==>
              t[k] == Forwarder(host[k].id)
    ensures forall k :: k in host && k !in OwnMembers && !host[k].Func? ==>
              t[k] == Accessor
  {
    TableFor(host, host.Keys)
  }

  /** Every forwarding member stands for a host function of the same name,
      and a name the bridge owns is never a forwarder or an accessor. */
  lemma ForwardersComeFromHostFunctions(host: map<string, JsValue>)
    ensures forall k :: k in Table(host) && Table(host)[k].Forwarder? ==>
              k in host && k !in OwnMembers && host[k] == Func(Table(host)[k].original)
    ensures forall k :: k in Table(host) && Table(host)[k].Accessor? ==>
              k in host && k !in OwnMembers && !host[k].Func?
  {
  }

  /** A host member named like one of the bridge's own is neither wrapped nor exposed. */
  lemma ReservedNamesWin(host: map<string, JsValue>)
    ensures Table(host)["on"] == Own(OnMethod)
    ensures Table(host)["off"] == Own(OffMethod)
    ensures Table(host)["cleanup"] == Own(CleanupMethod)
  {
  }

  /** One observable step of the bridge. */
  datatype Effect =
    | Invoked(original: FnId, args: seq<JsValue>)
    | Emitted(name: string, args: seq<JsValue>, listeners: seq<Emitter.ListenerId>)

  /** The global registrations left once both handlers are removed with the given capture flag. */
  function Unhooked(regs: seq<Dom.Registration>, onError: Dom.Handler, onRejection: Dom.Handler,
                    capture: bool): seq<Dom.Registration>
  {
    Dom.Removed(Dom.Removed(regs, Dom.Registration(ErrorEvent, onError, capture)),
                Dom.Registration(RejectionEvent, onRejection, capture))
  }

  /** Removing both handlers a second time changes nothing. */
  lemma UnhookedTwice(regs: seq<Dom.Registration>, onError: Dom.Handler, onRejection: Dom.Handler, capture: bool)
    ensures Unhooked(Unhooked(regs, onError, onRejection, capture), onError, onRejection, capture)
         == Unhooked(regs, onError, onRejection, capture)
  {
  }

  /** Removal as written passes no capture flag, so it misses a capture-phase
      registration: a handler registered that way stays registered. */
  lemma AsWrittenCleanupKeepsHandler(regs: seq<Dom.Registration>, onError: Dom.Handler, onRejection: Dom.Handler,
                                     kind: string, h: Dom.Handler)
    requires OnlyCapturing(regs, kind, h)
    requires Dom.Listening(regs, kind, h)
    ensures Dom.Listening(Unhooked(regs, onError, onRejection, false), kind, h)
  {
  }

  /** Registered only with the capture flag set, and only for its own event type. */
  ghost predicate OnlyCapturing(regs: seq<Dom.Registration>, kind: string, h: Dom.Handler) {
    forall k :: 0 <= k < |regs| && regs[k].callback == h ==> regs[k] == Dom.Registration(kind, h, Capture)
  }

  /** Removal with the flag used at registration unhooks both handlers. */
  lemma CorrectedCleanupUnhooks(regs: seq<Dom.Registration>, onError: Dom.Handler, onRejection: Dom.Handler)
    requires onError != onRejection
    requires OnlyCapturing(regs, ErrorEvent, onError)
    requires OnlyCapturing(regs, RejectionEvent, onRejection)
    ensures !Dom.Listening(Unhooked(regs, onError, onRejection, Capture), ErrorEvent, onError)
    ensures !Dom.Listening(Unhooked(regs, onError, onRejection, Capture), RejectionEvent, onRejection)
  {
  }

  /** The object `SimplyConsole(con)` returns. */
  class SimplyConsole {
    /** The wrapped host object. */
    const con: Console
    /** The global scope the two handlers are registered on. */
    const scope: Dom.GlobalScope
    /** The closures `handleError` and `handleUnhandledRejection`. */
    const handleError: Dom.Handler
    const handleUnhandledRejection: Dom.Handler
    /** The bridge's members, fixed by the construction loop. */
    const members: map<string, Slot>
    /** The event-dispatch core. */
    var events: Emitter.Registry
    /** Calls of host functions and emitted events, in order. */
    var trace: seq<Effect>

    ghost predicate Valid()
      reads scope
    {
      && scope.Valid()
      && handleError != handleUnhandledRejection
      && OnlyCapturing(scope.registrations, ErrorEvent, handleError)
      && OnlyCapturing(scope.registrations, RejectionEvent, handleUnhandledRejection)
    }

    constructor (con: Console, scope: Dom.GlobalScope)
      requires scope.Valid()
      modifies scope
      ensures Valid()
      ensures this.con == con && this.scope == scope
      ensures members == Table(con.members)
      ensures events == map[] && trace == []
      ensures fresh(handleError) && fresh(handleUnhandledRejection)
      ensures scope.registrations ==
                Dom.Added(Dom.Added(old(scope.registrations), Dom.Registration(ErrorEvent, handleError, Capture)),
                          Dom.Registration(RejectionEvent, handleUnhandledRejection, Capture))
    {
      this.con := con;
      this.scope := scope;
      handleError := new Dom.Handler();
      handleUnhandledRejection := new Dom.Handler();
      events := map[];
      trace := [];
      var table := OwnMembers;
      // `Object.keys(con)`: its own names, so `con.hasOwnProperty(key)` always
      // holds. Each name is handled on its own, so their order does not matter.
      var pending := con.members.Keys;
      while pending != {}
        invariant pending <= con.members.Keys
        invariant table == TableFor(con.members, con.members.Keys - pending)
        decreases pending
      {
        var key :| key in pending;
        // `simplyConsole.hasOwnProperty(key)`: names seen so far are distinct
        // from `key`, so only the bridge's own members can match.
        if key !in table {
          table := table[key := Classify(con.members[key])];
        }
        pending := pending - {key};
      }
      members := table;
      new;
      scope.AddEventListener(ErrorEvent, handleError, Capture);
      scope.AddEventListener(RejectionEvent, handleUnhandledRejection, Capture);
    }

    /** `events.emit(name, ...args)`: the registered listeners are called in order. */
    method Emit(name: string, args: seq<JsValue>)
      modifies this
      ensures events == old(events)
      ensures trace == old(trace) + [Emitted(name, args, Emitter.ListenersOf(events, name))]
    {
      trace := trace + [Emitted(name, args, Emitter.ListenersOf(events, name))];
    }

    /** The forwarding method installed for a host function: the original is
        called first with the exact arguments, then the event is emitted with
        the same arguments unless the guard finds a cycle. Nothing is returned. */
    method Forward(key: string, args: seq<JsValue>, stack: Option<string>)
      requires key in members && members[key].Forwarder?
      modifies this
      ensures events == old(events)
      ensures trace == old(trace) + [Invoked(members[key].original, args)]
                       + (if Recursion.Cyclic(stack) then []
                          else [Emitted(key, args, Emitter.ListenersOf(events, key))])
    {
      trace := trace + [Invoked(members[key].original, args)];
      var cyclic := Recursion.IsCyclic(stack);
      if cyclic {
        return;
      }
      Emit(key, args);
    }

    /** The getter installed for a host data member: the host's current value. */
    method Get(key: string) returns (v: JsValue)
      requires key in members && members[key].Accessor?
      ensures v == con.Get(key)
    {
      v := con.Get(key);
    }

    /** The setter installed for a host data member: the value is stored on the host. */
    method Set(key: string, v: JsValue)
      requires key in members && members[key].Accessor?
      modifies con
      ensures con.members == old(con.members)[key := v]
    {
      con.Set(key, v);
    }

    /** `on(name, fn)`. */
    method On(name: string, fn: Emitter.ListenerId)
      modifies this
      ensures events == Emitter.On(old(events), name, fn)
      ensures trace == old(trace)
    {
      events := Emitter.On(events, name, fn);
    }

    /** `off(name, fn?)`. */
    method Off(name: string, fn: Option<Emitter.ListenerId>)
      modifies this
      ensures events == Emitter.Off(old(events), name, fn)
      ensures trace == old(trace)
    {
      events := Emitter.Off(events, name, fn);
    }

    /** `handleError`: emits `error` with the event's `error` value. */
    method HandleError(e: UncaughtError)
      modifies this
      ensures events == old(events)
      ensures trace == old(trace) + [Emitted(ErrorEvent, [e.error], Emitter.ListenersOf(events, ErrorEvent))]
    {
      Emit(ErrorEvent, [e.error]);
    }

    /** `handleUnhandledRejection`: emits `error` with the event's `reason`. */
    method HandleUnhandledRejection(e: UnhandledRejection)
      modifies this
      ensures events == old(events)
      ensures trace == old(trace) + [Emitted(ErrorEvent, [e.reason], Emitter.ListenersOf(events, ErrorEvent))]
    {
      Emit(ErrorEvent, [e.reason]);
    }

    /** The environment reporting an uncaught error: the bridge's handler runs
        only while it is registered on the global scope. */
    method DispatchError(e: UncaughtError)
      modifies this
      ensures events == old(events)
      ensures trace == old(trace) +
                if Dom.Listening(scope.registrations, ErrorEvent, handleError)
                then [Emitted(ErrorEvent, [e.error], Emitter.ListenersOf(events, ErrorEvent))] else []
    {
      if Dom.Listening(scope.registrations, ErrorEvent, handleError) {
        HandleError(e);
      }
    }

    /** The environment reporting an unhandled rejection, likewise. */
    method DispatchRejection(e: UnhandledRejection)
      modifies this
      ensures events == old(events)
      ensures trace == old(trace) +
                if Dom.Listening(scope.registrations, RejectionEvent, handleUnhandledRejection)
                then [Emitted(ErrorEvent, [e.reason], Emitter.ListenersOf(events, ErrorEvent))] else []
    {
      if Dom.Listening(scope.registrations, RejectionEvent, handleUnhandledRejection) {
        HandleUnhandledRejection(e);
      }
    }

    /** `cleanup()` as written: the removals pass no options, so their
        capture flag is false and neither capture-phase handler is removed. */
    method CleanupAsWritten() returns (c: Console)
      requires Valid()
      modifies this, scope
      ensures Valid()
      ensures c == con
      ensures events == Emitter.RemoveAll(old(events)) && trace == old(trace)
      ensures scope.registrations == Unhooked(old(scope.registrations), handleError, handleUnhandledRejection, false)
      ensures old(Dom.Listening(scope.registrations, ErrorEvent, handleError)) ==>
                Dom.Listening(scope.registrations, ErrorEvent, handleError)
      ensures old(Dom.Listening(scope.registrations, RejectionEvent, handleUnhandledRejection)) ==>
                Dom.Listening(scope.registrations, RejectionEvent, handleUnhandledRejection)
    {
      ghost var before := scope.registrations;
      events := Emitter.RemoveAll(events);
      scope.RemoveEventListener(ErrorEvent, handleError, false);
      scope.RemoveEventListener(RejectionEvent, handleUnhandledRejection, false);
      c := con;
      if Dom.Listening(before, ErrorEvent, handleError) {
        AsWrittenCleanupKeepsHandler(before, handleError, handleUnhandledRejection, ErrorEvent, handleError);
      }
      if Dom.Listening(before, RejectionEvent, handleUnhandledRejection) {
        AsWrittenCleanupKeepsHandler(before, handleError, handleUnhandledRejection, RejectionEvent, handleUnhandledRejection);
      }
    }

    /** `cleanup()` with the removals passing the capture flag used at
        registration: every listener list is emptied, both handlers are
        unregistered, and the host object is returned. */
    method Cleanup() returns (c: Console)
      requires Valid()
      modifies this, scope
      ensures Valid()
      ensures c == con
      ensures events == Emitter.RemoveAll(old(events)) && trace == old(trace)
      ensures scope.registrations == Unhooked(old(scope.registrations), handleError, handleUnhandledRejection, Capture)
      ensures !Dom.Listening(scope.registrations, ErrorEvent, handleError)
      ensures !Dom.Listening(scope.registrations, RejectionEvent, handleUnhandledRejection)
    {
      ghost var before := scope.registrations;
      events := Emitter.RemoveAll(events);
      scope.RemoveEventListener(ErrorEvent, handleError, Capture);
      scope.RemoveEventListener(RejectionEvent, handleUnhandledRejection, Capture);
      c := con;
      CorrectedCleanupUnhooks(before, handleError, handleUnhandledRejection);
    }
  }

  /** Calling `cleanup()` twice: the second call finds nothing left to
      remove and returns the same host object. */
  method CleanupTwice(b: SimplyConsole) returns (first: Console, second: Console)
    requires b.Valid()
    modifies b, b.scope
    ensures first == b.con && second == b.con
    ensures b.events == map[] && forall name :: Emitter.ListenersOf(b.events, name) == []
    ensures b.trace == old(b.trace)
    ensures b.scope.registrations ==
              Unhooked(old(b.scope.registrations), b.handleError, b.handleUnhandledRejection, Capture)
  {
    first := b.Cleanup();
    second := b.Cleanup();
    UnhookedTwice(old(b.scope.registrations), b.handleError, b.handleUnhandledRejection, Capture);
  }

  /** The same for `cleanup()` as written. */
  method CleanupAsWrittenTwice(b: SimplyConsole) returns (first: Console, second: Console)
    requires b.Valid()
    modifies b, b.scope
    ensures first == b.con && second == b.con
    ensures b.events == map[] && forall name :: Emitter.ListenersOf(b.events, name) == []
    ensures b.trace == old(b.trace)
    ensures b.scope.registrations ==
              Unhooked(old(b.scope.registrations), b.handleError, b.handleUnhandledRejection, false)
  {
    first := b.CleanupAsWritten();
    second := b.CleanupAsWritten();
    UnhookedTwice(old(b.scope.registrations), b.handleError, b.handleUnhandledRejection, false);
  }

  /** A value written through the bridge is read back from both objects. */
  method WriteThenRead(b: SimplyConsole, key: string, v: JsValue) returns (viaBridge: JsValue, viaHost: JsValue)
    requires key in b.members && b.members[key].Accessor?
    modifies b.con
    ensures viaBridge == v && viaHost == v
  {
    b.Set(key, v);
    viaBridge := b.Get(key);
    viaHost := b.con.Get(key);
  }

  /** A value the host stores after construction is what the bridge reads. */
  method HostWriteSeenByBridge(b: SimplyConsole, key: string, v: JsValue) returns (viaBridge: JsValue)
    requires key in b.members && b.members[key].Accessor?
    modifies b.con
    ensures viaBridge == v
  {
    b.con.Set(key, v);
    viaBridge := b.Get(key);
  }

  /** Replacing a host method after construction does not change what the
      bridge's forwarder calls: the function was bound when the bridge was built. */
  method HostReassignmentIgnored(b: SimplyConsole, key: string, replacement: JsValue,
                                 args: seq<JsValue>, stack: Option<string>)
    requires key in b.members && b.members[key].Forwarder?
    modifies b, b.con
    ensures b.con.members == old(b.con.members)[key := replacement]
    ensures |b.trace| > |old(b.trace)| && b.trace[|old(b.trace)|] == Invoked(b.members[key].original, args)
  {
    b.con.Set(key, replacement);
    b.Forward(key, args, stack);
  }

  /** After `cleanup()` as written, the global error handler is still
      registered: a listener added afterwards receives an uncaught error. */
  method ErrorAfterCleanupAsWritten(con: Console, error: JsValue, fn: Emitter.ListenerId)
    returns (trace: seq<Effect>)
    ensures trace == [Emitted(ErrorEvent, [error], [fn])]
  {
    var scope := new Dom.GlobalScope();
    var b := new SimplyConsole(con, scope);
    assert scope.registrations[0] == Dom.Registration(ErrorEvent, b.handleError, Capture);
    assert Dom.Listening(scope.registrations, ErrorEvent, b.handleError);
    var returned := b.CleanupAsWritten();
    b.On(ErrorEvent, fn);
    assert Emitter.ListenersOf(b.events, ErrorEvent) == [fn];
    b.DispatchError(UncaughtError(error));
    trace := b.trace;
  }

  /** After the corrected `cleanup()`, the same error reaches no listener. */
  method ErrorAfterCleanup(con: Console, error: JsValue, fn: Emitter.ListenerId)
    returns (trace: seq<Effect>)
    ensures trace == []
  {
    var scope := new Dom.GlobalScope();
    var b := new SimplyConsole(con, scope);
    var returned := b.Cleanup();
    b.On(ErrorEvent, fn);
    b.DispatchError(UncaughtError(error));
    trace := b.trace;
  }
}
