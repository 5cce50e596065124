# node-browser remote-object proxying layer, in Dafny

This project models the core of the proxying layer that lets browser code use
Node modules living on a server. The model covers:

- **`Batch`**: the call batcher. It queues calls, flushes them as one remote
  call when the batch is full or a timer fires, and settles each queued call
  from the positionally matching result.
- **`ServerProxy`**: the server-side event bookkeeping. It holds the list of
  bound events and the registered forwarding callbacks, and attaches one
  forwarder per callback and bound event. Delayed events are bound lazily.
- **`ClientProxy`**: the client-side emitter policy.
  - Every listener also asks the server to bind its event.
  - An `"error"` first goes to a private internal-error channel, then
    publicly; a public `"error"` with no listener throws.
  - A `"disconnected"` handler emits `"error"`, swallows the throw, and then
    runs `handleDisconnect`.
- **`ChildProcess`**: the client-side child process. A state machine over
  `pid`, `connected` and `killed` is driven by `getPid`, `exit`,
  `disconnect`, `kill` and the synthesized `exit(1)`/`close` of a lost
  connection.
- **Argument and completion rules**: how `send`, `exec`, `fork` and `spawn`
  normalise their arguments, and the rule by which an `exec` callback
  reports failure and joins its output.
- **Property lookups**: the forwarder cache of `unpromisify` and the member
  lookup of `NotImplementedProxy`.

Modules:

- `common.dfy` — `Common`: options, thrown errors, and the JavaScript values
  the code inspects (`typeof`, `Array.isArray`, truthiness, property reads).
  It also holds the proxy identifiers.
- `batch.dfy` — `Batching`: `Batch` as a class whose queue and two timers are
  fields.
  - Remote calls are numbered, and a queued call's promise is a `Ticket(call,
    index)`.
  - `Respond` feeds back the remote call's outcome: results, or a failure of
    the whole call.
  - Settlements are recorded in a map from tickets.
- `server_proxy.dfy` — `ServerEvents`: `ServerProxy` as a class. The wrapped
  instance's listeners are a map from event name to a list of listener tags.
- `client_proxy.dfy` — `ClientProxy`: the emitter registry and the
  emit/throw rule, as functions over a value.
- `child_process.dfy` — `ChildProcessClient`:
  - `ChildProcess` is a class that runs the `ClientProxy` rules on its own
    emitter. Its calls on the server proxy are recorded in order, and so are
    the caller listeners it calls.
  - The argument rules are functions.
  - `ExecCapture` is the state `exec` keeps for its callback.
  - Every `ChildProcess` method other than `SendMessage` states that the
    callbacks kept for earlier sends are unchanged.
- `forwarder.dfy` — `Forwarding`: the `unpromisify` cache as a class, the
  forwarder call, and the `NotImplementedProxy` lookup.
- `scenarios.dfy` — `Scenarios`: concrete runs of the objects above, each
  with its complete outcome stated.

Design choices that shape the model:

- **Timers** are armed/disarmed flags. Each timer also has a counter of how
  often it was started.
- **Timer expiry** is the method `TimerFires`.
- **Promise settlement** is an explicit step. A listener is identified by a
  number.

## Model

| member | source | states |
|---|---|---|
| `Batching.Args` | src/common/proxy.ts:345 | the remote call receives one argument per queued call, in queue order |
| `Batching.Settlements` | src/common/proxy.ts:346-356 | a settled remote call settles exactly its own tickets, each from the result at its own position |
| `Batching.SettlementOf` | src/common/proxy.ts:347-356 | how one item of a flushed batch settles; its meaning is proved in `RejectedExactlyOnError`, `ResolvedWithOwnResult` and `SiblingsIndependent`: rejected exactly on a failed call or an `Error` at its own position, otherwise resolved with its own entry or `undefined` |
| `Batching.RejectedExactlyOnError` | src/common/proxy.ts:346-356 | a queued call is rejected exactly when the whole call failed (with that failure) or its own result is an error (with that error) |
| `Batching.ResolvedWithOwnResult` | src/common/proxy.ts:347-353 | a non-error result resolves its call with that result; a missing result (past the end) resolves with `undefined` |
| `Batching.SiblingsIndependent` | src/common/proxy.ts:347-354 | a call's settlement depends only on its own result, not on its siblings' |
| `Batching.Batch.constructor` | src/common/proxy.ts:288-308 | defaults 1000/100/1; empty queue, no timer armed, nothing sent or settled |
| `Batching.Batch.Add` | src/common/proxy.ts:310-327 | the call goes last in the queue; reaching `maxCount` flushes it at once without starting timers, else the idle timer is restarted and the max timer started only if not already armed; every invariant is kept, including queue length below `maxCount` and timers armed exactly while the queue is non-empty |
| `Batching.Batch.Flush` | src/common/proxy.ts:337-345 | both timers stop, the queue empties, and its arguments go out in submission order as the next remote call, awaiting its outcome |
| `Batching.Batch.TimerFires` | src/common/proxy.ts:320-324 | either armed timer flushes the current batch |
| `Batching.Batch.SettleEach` | src/common/proxy.ts:347-354 | settling a flushed batch item by item records exactly the settlements of its tickets |
| `Batching.Batch.SettledBatch` | src/common/proxy.ts:346-356 | recording a remote call's outcome keeps the ticket bookkeeping consistent: every ticket of a finished call is settled, none of a pending one |
| `Batching.Batch.Respond` | src/common/proxy.ts:345-356 | the outcome of remote call `call` settles each of its items exactly once and touches nothing else |
| `ServerEvents.ServerProxy.constructor` | src/common/proxy.ts:189-193 | no callbacks and no listeners attached; the options are kept |
| `ServerEvents.ServerProxy.Dispose` | src/common/proxy.ts:198-200 | all listeners of the instance are removed; bound events and callbacks stay |
| `ServerEvents.ServerProxy.AttachEach` | src/common/proxy.ts:244-246 | attaching a listener for a list of events adds it to each event as often as that event is listed, and to nothing else |
| `ServerEvents.ServerProxy.OnEvent` | src/common/proxy.ts:242-247 | the callback is recorded last and gets one forwarder on each currently bound event; the forwarder-count invariant is kept |
| `ServerEvents.ServerProxy.BindDelayedEvent` | src/common/proxy.ts:219-230 | a declared delayed event not yet bound is appended to the bound events and gets one forwarder per existing callback, in callback order; otherwise nothing changes, so a repeated call is a no-op |
| `ServerEvents.ServerProxy.OnDone` | src/common/proxy.ts:206-208 | the done callback is attached once per listed done event; forwarding is unaffected |
| `ServerEvents.RegisterKeepsForwarding` | src/common/proxy.ts:242-247 | after `onEvent`, each bound event still carries exactly one forwarder of every callback, the new one included |
| `ServerEvents.BindKeepsForwarding` | src/common/proxy.ts:219-230 | after binding a delayed event, it carries one forwarder of every existing callback, like the events bound before |
| `ServerEvents.DoneKeepsForwarding` | src/common/proxy.ts:206-208 | done listeners never count as forwarders |
| `ServerEvents.ForwardedExactlyOnce` | src/common/proxy.ts:219-247 | while not disposed and the bound events are distinct, each callback has exactly one forwarder on each bound event and none on any other event |
| `ClientProxy.AddListener` | src/common/proxy.ts:85-96 | a listener goes last on its own event and changes no other event or the internal-error channel |
| `ClientProxy.AddInternalErrorListener` | src/common/proxy.ts:78-80 | an internal-error listener goes last on the private channel and changes no public event |
| `ClientProxy.EmitResult` | src/common/proxy.ts:101-106 | what `emit` returns or throws; proved in `ErrorListenerHandles` and `InternalListenersDoNotHandle`: only an `"error"` without a public listener throws, internal listeners never change the result, and any other event returns whether it had listeners |
| `ClientProxy.Invocations` | src/common/proxy.ts:101-106 | the listeners one `emit` calls, in order; proved in `InternalErrorFirst` and `CallerInvocationsCount`: on `"error"` the internal-error listeners come first, then each caller listener as often as it is registered, all with the emitted arguments |
| `ClientProxy.CallerInvocationsCount` | src/common/proxy.ts:101-106 | emitting calls each caller listener of the event as often as it is registered, with the emitted arguments, and nothing else |
| `ClientProxy.InternalListenersDoNotHandle` | src/common/proxy.ts:74-80 | an internal-error listener changes no emit's result: an unhandled `"error"` still throws |
| `ClientProxy.ErrorListenerHandles` | src/common/proxy.ts:101-106 | a public `"error"` listener stops `"error"` from throwing; any other event returns whether it had listeners |
| `ClientProxy.InternalErrorFirst` | src/common/proxy.ts:101-106 | on `"error"` every internal-error listener is called first, in order, with the error's arguments |
| `ChildProcessClient.ChildProcess.constructor` | src/client/child_process.ts:26-50 | pid -1, not connected, not killed; the server calls `onEvent`, bind `"disconnected"`, `getPid`, bind `"disconnect"`, bind `"exit"` are made in that order; each of those three events holds only its own handler |
| `ChildProcessClient.ChildProcess.On` | src/common/proxy.ts:85-96 | the listener is added and a bind request for its event is queued; flags unchanged |
| `ChildProcessClient.ChildProcess.OnInternalError` | src/common/proxy.ts:78-80 | the listener joins the private channel only; no request goes to the server |
| `ChildProcessClient.ChildProcess.Emit` | src/common/proxy.ts:101-106 | returns or throws as `EmitResult` says; calls the internal-error listeners first and then the public listeners in order; `exit` clears `connected` and sets `killed`; `disconnect` only clears `connected`; `disconnected` swallows its synthesized error, then emits `exit(1)` and `close`, ending killed and not connected |
| `ChildProcessClient.Cascade` | src/common/proxy.ts:63-70 | the listeners the `"disconnected"` handler reaches: those of the synthesized `"error"`, then of `exit(1)` and of `close` from `handleDisconnect` (src/client/child_process.ts:110-113); `Emit` proves the process calls exactly these, and `DisconnectFailsExec` states what the `exit` ones receive |
| `ChildProcessClient.ChildProcess.EmitError` | src/common/proxy.ts:101-106 | an `"error"` reaches every internal-error listener first; with no public listener it then throws its first argument, otherwise the public listeners run and the result is true; the flags are unchanged |
| `ChildProcessClient.ChildProcess.DeliverAll` | src/common/proxy.ts:105 | the public listeners of an event run in registration order, and only the mirror's own handler changes the flags |
| `ChildProcessClient.ChildProcess.CallCallers` | src/common/proxy.ts:105 | each caller listener in the list is called once, in list order, with the emitted arguments |
| `ChildProcessClient.ChildProcess.Deliver` | src/client/child_process.ts:45-49 | the `disconnect` handler clears `connected`; the `exit` handler clears `connected` and sets `killed`; a caller's listener is recorded |
| `ChildProcessClient.ChildProcess.Disconnected` | src/common/proxy.ts:63-70 | the synthesized `"error"` reaches its listeners but never escapes; the process ends killed and not connected |
| `ChildProcessClient.ChildProcess.HandleDisconnect` | src/client/child_process.ts:110-113 | emits `exit` with code 1, then `close`; afterwards killed and not connected |
| `ChildProcessClient.BuiltinEvents` | src/client/child_process.ts:45-49 | exactly `exit`, `disconnect` and `disconnected` end the connection; exactly `exit` and `disconnected` mark the process killed |
| `ChildProcessClient.HeadHandler` | src/client/child_process.ts:26-50 | on an event with a handler of the mirror's own, that handler comes first and every later listener is a caller's; on any other event only callers listen |
| `ChildProcessClient.ChildProcess.PidResolved` | src/client/child_process.ts:39-44 | the pid is recorded and the process becomes connected |
| `ChildProcessClient.ChildProcess.CallRejected` | src/common/proxy.ts:147-153 | a rejected server call is emitted as `"error"`, and throws when nobody listens publicly |
| `ChildProcessClient.ChildProcess.KillProcess` | src/client/child_process.ts:64-67 | `killed` is set and the kill request is queued |
| `ChildProcessClient.ChildProcess.ForwardCall` | src/client/child_process.ts:69-79 | `disconnect`, `ref` and `unref` only queue their request |
| `ChildProcessClient.ChildProcess.SendMessage` | src/client/child_process.ts:81-105 | throws exactly when `SendCallback` refuses, without sending; otherwise sends only the message to the server, keeps the chosen callback on the client, and returns true |
| `ChildProcessClient.SendShapes` | src/client/child_process.ts:87-96 | a function `sendHandle` becomes the callback; else a function `options` does; a truthy handle or options that remains is refused |
| `ChildProcessClient.SendOutcomes` | src/client/child_process.ts:87-96 | the only error is "sendHandle and options are not supported"; the callback kept is one of the three candidates; a truthy non-function handle is always refused |
| `ChildProcessClient.SendCallback` | src/client/child_process.ts:87-96 | the callback `send` keeps, or its refusal; proved case by case in `SendShapes` and as a whole in `SendOutcomes`, and used by `SendMessage` |
| `ChildProcessClient.ShiftArgsMeaning` | src/client/child_process.ts:163-179 | for `fork` and `spawn` an array `args` passes with its options; anything else becomes the options and `args` becomes undefined |
| `ChildProcessClient.ForkCall` | src/client/child_process.ts:163-170 | `fork` sends its module path; an array `args` goes with the given options, anything else is sent as the options with `args` undefined |
| `ChildProcessClient.SpawnCall` | src/client/child_process.ts:172-179 | `spawn` sends its command; an array `args` goes with the given options, anything else is sent as the options with `args` undefined |
| `ChildProcessClient.ExecCallMeaning` | src/client/child_process.ts:137-142 | a function `options` becomes the callback and no options are sent; the callback never goes to the server |
| `ChildProcessClient.ExecCall` | src/client/child_process.ts:137-142 | the request `exec` sends and the callback it keeps; proved in `ExecCallMeaning`: a function `options` becomes the callback with `undefined` options, and the callback never goes in the request |
| `ChildProcessClient.ConcatAppend` | src/client/child_process.ts:148-151 | output collected in two stretches joins to the two stretches' output one after the other |
| `ChildProcessClient.ExecCompletionMeaning` | src/client/child_process.ts:152-157 | the callback gets "Command failed: <command>" exactly when the code is not 0 or a signal is set; stdout and stderr are all chunks in order, strings exactly under `"utf8"` |
| `ChildProcessClient.ExecCompletion` | src/client/child_process.ts:152-157 | the arguments of the `exec` callback; proved in `ExecCompletionMeaning`: an error exactly when the code is not 0 or the signal is not `null`, and the chunks joined in order, as strings exactly under `"utf8"` |
| `ChildProcessClient.ExitCode` | src/client/child_process.ts:152 | the `code` parameter of the `exit` listener is the first emitted argument; `DisconnectFailsExec` uses it on what a lost connection emits |
| `ChildProcessClient.ExitSignal` | src/client/child_process.ts:152 | the `signal` parameter is the second emitted argument, `undefined` when it is missing; `DisconnectFailsExec` uses it on what a lost connection emits |
| `ChildProcessClient.DisconnectFailsExec` | src/client/child_process.ts:110-113 | every `exit` listener a lost connection reaches is called with exactly `[1]`, that is code 1 and an `undefined` signal, so an `exec` callback listening there reports failure |
| `ChildProcessClient.ExecCapture.constructor` | src/client/child_process.ts:145-149 | the encoding is `options && options.encoding`; no chunks and no exit yet |
| `ChildProcessClient.ExecCapture.StdoutData` | src/client/child_process.ts:150 | a stdout chunk is pushed and the joined output grows by it |
| `ChildProcessClient.ExecCapture.StderrData` | src/client/child_process.ts:151 | a stderr chunk is pushed and the joined output grows by it |
| `ChildProcessClient.ExecCapture.Exit` | src/client/child_process.ts:152-158 | only the first exit calls the callback, with the code and signal taken from the emitted arguments and the completion of all chunks received |
| `Forwarding.Forward` | src/common/proxy.ts:35-39 | calling a forwarder calls, on the resolved proxy and with the same arguments, the member the forwarder was made for, and yields `undefined` when the proxy resolved to nothing |
| `Forwarding.CallForwarder` | src/common/proxy.ts:32-43 | the forwarder cached for a non-inherited name calls that same name on the resolved proxy with the given arguments, or yields `undefined` when the proxy resolved to nothing |
| `Forwarding.Unpromisified.constructor` | src/common/proxy.ts:28-31 | the cache starts empty |
| `Forwarding.Unpromisified.Get` | src/common/proxy.ts:32-43 | an inherited member is returned as it is; otherwise the forwarder cached for that name, or a new one made for that name and kept; distinct names keep distinct forwarder numbers |
| `Forwarding.SameForwarderTwice` | src/common/proxy.ts:32-43 | reading a name twice yields the same forwarder; two non-inherited names yield forwarders with different numbers |
| `Forwarding.Lookup` | src/common/proxy.ts:360-371 | a present member passes through; any other read throws "not implemented: <stub>-><member>" |
| `Forwarding.NotImplementedNamesMember` | src/common/proxy.ts:367 | the refusal message identifies the member that was read |
| `Scenarios.BatchKeepsOrder` | src/common/proxy.ts:310-345 | three calls in one idle window go out as one remote call, in order, with tickets 0, 1, 2 |
| `Scenarios.FullBatchFlushes` | src/common/proxy.ts:317-318 | with `maxCount` 2 the second call flushes at once and no timer stays armed |
| `Scenarios.ErrorIsolation` | src/common/proxy.ts:347-354 | results [10, error, 30] resolve, reject and resolve the three calls |
| `Scenarios.WholeCallFails` | src/common/proxy.ts:356 | a failed remote call rejects its own batch and leaves the next batch pending |
| `Scenarios.LazyBinding` | src/common/proxy.ts:219-247 | a delayed `data` event gets its forwarder only when bound, and binding twice changes nothing |
| `Scenarios.DoneAfterForwarder` | src/common/proxy.ts:206-208 | a done callback on `close` runs after the forwarder registered before it |
| `Scenarios.DisconnectWithoutErrorListener` | src/common/proxy.ts:63-70 | with no error listener a lost connection does not throw; the caller hears `exit(1)` then `close`; the process ends killed and not connected |
| `Scenarios.DisconnectHeard` | src/client/child_process.ts:110-113 | with caller listeners only on `exit` and `close`, a lost connection is handled and delivers `exit(1)` to the first and then `close` to the second |
| `Scenarios.RejectionWithInternalListenerOnly` | src/common/proxy.ts:147-153 | a rejection reaches the internal-error listener and still throws |
| `Scenarios.ExecFailsOnce` | src/client/child_process.ts:152-157 | a non-zero exit reports failure with the joined `"utf8"` output, once |

## Left out

- Timing: `setTimeout`/`clearTimeout` and the durations `maxTime` and `idleTime` are kept as constants only. Which armed timer fires first, and when, is the caller's choice of `TimerFires`.
- Promise scheduling: settlements and the resolution of `getPid` are explicit steps (`Respond`, `PidResolved`, `CallRejected`). The event loop's interleaving is not modelled.
- The transport, `remoteCall`, and the server-side child process proxies are not part of this model. A remote call's outcome is an input.
- EventEmitter internals beyond a listener registry and the unhandled-`"error"` rule are not modelled: `once` on the mirror, listener removal, `newListener`, and the listener limit. A listener registered while an emit is running is not modelled either.
- `ClientProxy.EmitResult`: an unhandled `"error"` throws its first argument. Node wraps a non-`Error` argument in `ERR_UNHANDLED_ERROR`; that wrapping is not modelled.
- The `bindEvents = false` mode of `ClientProxy` is not modelled: `ChildProcess` always binds events. The same goes for the reconnect path through `initialize`, and for `proxyPromise`.
- `send` is modelled without its `callbackify` wiring: the chosen callback is kept on the client in `sendCallbacks` and never called, since the server's answer is not modelled.
- The `stdin`/`stdout`/`stderr` stream mirrors are not part of this model. `ExecCapture` receives their chunks and the `exit` event directly; it is created only when the `exec` callback is truthy.
- Buffers: stdout/stderr chunks are strings, and `Buffer.concat` is concatenation of the same chunks, told apart only by the `Bytes` tag.
- JavaScript `Proxy` metaprogramming: both property-lookup objects are modelled as map lookups. The `unpromisify` target's inherited members are the standard `Object.prototype` names. Numeric and symbol property keys are not modelled.
- `ForkCall`, `SpawnCall` and `ExecCall` build the request for the server; the `ChildProcess` built from that request is the class above.
- The `Module` enum and the `EncodingOptions` types carry no behaviour. `Module` appears only inside the proxy identifiers.
- Caller listeners that throw are not modelled: every listener call returns normally. In the source the `"disconnected"` handler's `try`/`catch` would also swallow a throw from a caller's `"error"` listener, and a throwing `"exit"` listener would stop `handleDisconnect` before it emits `"close"`.
