# simply-console, modelled in Dafny

`SimplyConsole(con)` wraps a host logging object (the browser `console`) in a
bridge. Each host method is replaced by a forwarding method. It calls the original
with the caller's arguments and then emits an event named after the method
with the same arguments. Each host data member is exposed through a getter and
a setter that read and write the host. Two global handlers turn uncaught errors
and unhandled promise rejections into `error` events. `on`, `off` and `cleanup`
manage the listeners. A recursion guard, `isCyclic`, reads the stack trace and
suppresses the event when a forwarding call is nested inside another call of
the same forwarder. This stops a listener that logs from recursing forever.

The model has seven modules:

- `StackTrace` (stack_trace.dfy): what the global regex `at\s(.+)\s\(` extracts
  from a stack trace, one frame name per line. It also renders frames as
  `    at <name> (<location>)` lines and proves that extraction reads the names back.
- `Recursion` (recursion.dfy): `IsCyclic`, the guard's `while` loop. It is proved
  against `Cyclic`: the stack is truthy and frame 1 occurs again in frames 2 and later.
- `Emitter` (emitter.dfy): the event-dispatch core, kept abstract. It is a map
  from event name to listener ids in registration order, driven only by `on`,
  `off`, `removeAllListeners` and `emit`.
- `Dom` (dom.dfy): the global scope's event-listener list as section 2.7 of the
  WHATWG DOM Standard defines it. An entry is keyed by type, callback and capture flag.
- `Bridge` (bridge.dfy): the host object `Console` and the bridge class
  `SimplyConsole`. The construction loop is proved against `Table`. The bridge's
  member table is a `const`, so each member's kind is fixed at construction.
  One trace records both the calls of host functions (`Invoked`) and the emitted
  events (`Emitted`), so their order can be stated.
- `Lists`, `Wrappers`: `Without` (drop every occurrence of a value) and `Option`.

Three behaviours of the code are easy to misread, and the model keeps them as written:

- The guard compares only frame 1 with the later frames. A repeat among
  other frames is not detected.
- `off(name, fn)` drops every registration of `fn` under `name`, not just one.
  This is eventemitter3's `removeListener`.
- Forwarding methods still emit after `cleanup`. Only the listeners
  registered before `cleanup` are gone.

## Model

| member | source | states |
|---|---|---|
| `StackTrace.FrameName` | src/index.ts:88-93 | a line yields a name exactly when some "at " is followed, one or more characters later, by " ("; the name is the text between the leftmost such "at " and the last " (" of the line, and is non-empty |
| `StackTrace.FrameNames` | src/index.ts:88-91 | the successive regex matches on a stack trace: every name is non-empty and free of line breaks |
| `StackTrace.FrameNameOfLine` | src/index.ts:88 | the regex reads back the name from a well-formed `    at <name> (<location>)` line |
| `StackTrace.FrameNamesOfRender` | src/index.ts:88-91 | extracting names from a rendered stack trace gives exactly the frames' names, in order |
| `Recursion.IsCyclic` | src/index.ts:85-95 | the loop returns true exactly when the stack is truthy and frame 1 appears again among frames 2 and later; a falsy stack gives false |
| `Recursion.GuardFrameIgnored` | src/index.ts:89 | the first match is discarded: changing frame 0 never changes the answer |
| `Recursion.ShortStackNotCyclic` | src/index.ts:89-94 | fewer than two frames are never cyclic |
| `Recursion.OtherRepeatIgnored` | src/index.ts:92-93 | a repeat of frames other than frame 1 is not reported |
| `Recursion.CyclicOnRenderedStack` | src/index.ts:86-94 | on a well-formed stack trace the guard answers true exactly when the name of frame 1 recurs among the later frames |
| `Recursion.ReentrantCallSuppressed` | src/index.ts:38-42 | a listener that re-enters the same forwarder puts it at frame 1 and again further out, so the nested event is suppressed |
| `Recursion.OutermostCallEmits` | src/index.ts:38-42 | a forwarder whose name does not recur further out is not suppressed |
| `Emitter.On` | src/index.ts:18-20 | `on` appends the listener to its name's list, without deduplication, and leaves other names alone |
| `Emitter.Off` | src/index.ts:21-23 | `off(name)` empties the list; `off(name, fn)` removes every registration of `fn`, keeps the rest, and leaves other names alone |
| `Emitter.RemoveAll` | src/index.ts:25 | after `removeAllListeners` no name has a listener |
| `Emitter.OffKeepsOthersInOrder` | src/index.ts:21-23 | `off(name, fn)` on a list with `fn` anywhere in it keeps every other listener in its order: the listeners before a registration of `fn` still come before those after it, whether `fn` is registered once or several times |
| `Emitter.OffUndoesOn` | src/index.ts:18-23 | `off` after `on` of a new listener restores the list |
| `Emitter.OffUnknownIsNoOp` | src/index.ts:21-23 | `off` of an unregistered listener changes nothing |
| `Dom.Added` | src/index.ts:56-61 | registering adds the entry once and never duplicates an entry |
| `Dom.Removed` | src/index.ts:26-27 | removal drops only the entry equal in type, callback and capture flag |
| `Dom.GlobalScope.AddEventListener` | src/index.ts:56-61 | `addEventListener` updates the scope's list as `Added` says and keeps it duplicate-free |
| `Dom.GlobalScope.RemoveEventListener` | src/index.ts:26-27 | `removeEventListener` updates the scope's list as `Removed` says |
| `Dom.RemovalNeedsCaptureFlag` | src/index.ts:26-27 | a capture-phase entry survives a removal that passes capture false |
| `Dom.RemovedTwice` | src/index.ts:26-27 | removing an entry twice is the same as removing it once |
| `Bridge.Console.Set` | src/index.ts:49 | assigning a host member replaces exactly that member |
| `Bridge.Table` | src/index.ts:32-53 | the bridge's names are the host's names plus `on`, `off`, `cleanup`; those three keep the bridge's own methods; every other host function becomes a forwarder of that function and every other host value an accessor |
| `Bridge.ForwardersComeFromHostFunctions` | src/index.ts:32-53 | every forwarder stands for a host function of the same name, and every accessor for a host member that is not a function |
| `Bridge.ReservedNamesWin` | src/index.ts:17-33 | host members named `on`, `off` or `cleanup` are neither wrapped nor exposed |
| `Bridge.UnhookedTwice` | src/index.ts:24-29 | removing both global handlers a second time changes nothing |
| `Bridge.AsWrittenCleanupKeepsHandler` | src/index.ts:26-27 | removal without the capture flag leaves a capture-phase handler registered |
| `Bridge.CorrectedCleanupUnhooks` | src/index.ts:26-27 | removal with the capture flag used at registration leaves neither handler registered |
| `Bridge.SimplyConsole.constructor` | src/index.ts:10-63 | the member table is `Table(con)`, no listener and no effect yet, and both handlers are registered with capture true |
| `Bridge.SimplyConsole.Emit` | src/index.ts:41 | `emit` records the event with its arguments and the listeners of that name, in order |
| `Bridge.SimplyConsole.Forward` | src/index.ts:34-42 | the original is called once with the exact arguments, then the event is emitted with the same arguments only if the guard finds no cycle; nothing is returned and the listeners do not change |
| `Bridge.SimplyConsole.Get` | src/index.ts:45-47 | the getter returns the host's current value |
| `Bridge.SimplyConsole.Set` | src/index.ts:48-50 | the setter stores the value on the host and changes nothing else there |
| `Bridge.SimplyConsole.On` | src/index.ts:18-20 | `on` registers through the emitter and emits nothing |
| `Bridge.SimplyConsole.Off` | src/index.ts:21-23 | `off` unregisters through the emitter and emits nothing |
| `Bridge.SimplyConsole.HandleError` | src/index.ts:13 | the error handler emits exactly one `error` event carrying `e.error` |
| `Bridge.SimplyConsole.HandleUnhandledRejection` | src/index.ts:14-15 | the rejection handler emits exactly one `error` event carrying `e.reason` |
| `Bridge.SimplyConsole.DispatchError` | src/index.ts:56 | an uncaught error reaches the bridge's listeners only while its handler is registered |
| `Bridge.SimplyConsole.DispatchRejection` | src/index.ts:57-61 | an unhandled rejection reaches the bridge's listeners only while its handler is registered |
| `Bridge.SimplyConsole.CleanupAsWritten` | src/index.ts:24-29 | `cleanup` as written empties every listener list and returns `con`, but a handler registered before stays registered |
| `Bridge.SimplyConsole.Cleanup` | src/index.ts:24-29 | corrected `cleanup`: empties every listener list, unregisters both handlers and returns `con` |
| `Bridge.CleanupTwice` | src/index.ts:24-29 | a second `cleanup` returns the same object, records no effect and leaves the listeners and the scope as one call left them |
| `Bridge.CleanupAsWrittenTwice` | src/index.ts:24-29 | the same for `cleanup` as written: no effect recorded, no listener left, the scope as one call left it |
| `Bridge.WriteThenRead` | src/index.ts:43-51 | a value written through the bridge reads back from the bridge and from the host |
| `Bridge.HostWriteSeenByBridge` | src/index.ts:45-47 | a value the host stores later is what the bridge reads |
| `Bridge.HostReassignmentIgnored` | src/index.ts:34-36 | replacing a host method after construction does not change the function the forwarder calls |
| `Bridge.ErrorAfterCleanupAsWritten` | src/index.ts:24-29 | after `cleanup` as written, a listener added later receives an uncaught error |
| `Bridge.ErrorAfterCleanup` | src/index.ts:24-29 | after the corrected `cleanup`, the same error reaches no listener |

## Left out

- The default argument `con = self.console` (src/index.ts:3, 10). The host object is always passed in.
- eventemitter3 internals. The registry is a map from name to listener ids, and `emit` records which listeners it would call. Listener contexts, `once` listeners and the removal of empty lists are not modelled.
- What a listener does when it runs: side effects, re-entrant calls and exceptions. A listener is an opaque id. Re-entrancy shows only through the stack trace given to the guard.
- The environment. `new Error().stack` is a parameter of `Forward` and `IsCyclic`. The global scope is a list of registrations. The order of event dispatch, the capture phase and other listeners on the scope are not modelled.
- StackTrace.FrameName: `\s` is modelled as the blank only, and only `\n` ends a line. A match whose `\s` is a tab or a line break is not modelled.
- The original function's own behaviour. Its return value is discarded by the source and is not modelled. If it threw, the emit would be skipped; the model's call always completes.
- `Function.prototype.bind` and `Object.defineProperty`. Only their effect is modelled: the function captured at construction is the one called, and accessors read and write the host.
- Object.keys order. The loop takes the names as a set, because the result does not depend on their order.
- Host members that are inherited, non-enumerable, or named after `Object.prototype` members such as `hasOwnProperty`.
- Assignments to the bridge's own members by its users, and deleting host members. A missing host member reads as `Undefined`.
- The TypeScript type-level mappings (src/index.ts:68-83). They have no runtime behaviour.
- Several bridges sharing one scope. `Valid` is stated for one bridge at a time.
- Dom.Removed drops every equal entry, while the DOM drops the single one. The list never holds duplicates, so the two agree.

## Findings

| source | as written | input that shows it | evidently intended | confidence | as-written member | corrected member |
|---|---|---|---|---|---|---|
| src/index.ts:26-27 | `removeEventListener('error', handleError)` and `removeEventListener('unhandledrejection', handleUnhandledRejection)` pass no options, so their capture flag is false. The handlers were added with `{ capture: true }` (src/index.ts:56-61, 66), and the DOM matches an entry on type, callback and capture. Neither handler is removed. | Build a bridge, call `cleanup()`, register `on('error', f)`, then let an uncaught error reach the global scope. `handleError` still runs and `f` receives the error. The handlers also stay registered for the life of the page. `Bridge.ErrorAfterCleanupAsWritten` states this run, and `Bridge.ErrorAfterCleanup` the corrected one. | Pass `EventOptions` to both removals so that `cleanup` unregisters the handlers. | high; not executed | `Bridge.SimplyConsole.CleanupAsWritten` | `Bridge.SimplyConsole.Cleanup` |
