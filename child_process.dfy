/** The client-side child process: a mirror whose local emitter keeps
    `pid`, `connected` and `killed` up to date, synthesizes `exit` and `close`
    when the connection to the server is lost, and normalises the arguments of
    `send`, `exec`, `fork` and `spawn` before they go to the server. */
module ChildProcessClient {
  import opened Common
  import opened ClientProxy

  /** The handlers a child process installs on its own events. */
  datatype ProcessHandler = ClearConnected | MarkExited

  /** A call the mirror makes on the server-side child process proxy. */
  datatype ProxyCall =
    | Subscribe
    | BindDelayedEvent(event: string)
    | GetPid
    | Kill
    | Disconnect
    | Ref
    | Unref
    | Send(message: Value)

  /** The handler the mirror itself registers first on `event`, if any. */
  function Builtin(event: string): Option<Listener<ProcessHandler>>
  {
    if event == "disconnected" then Some(DisconnectHandler)
    else if event == "disconnect" then Some(Own(ClearConnected))
    else if event == "exit" then Some(Own(MarkExited))
    else None
  }

  /** An event's listeners: the mirror's own handler first, if it has one, then callers' only. */
  ghost predicate Shaped(hs: seq<Listener<ProcessHandler>>, own: Option<Listener<ProcessHandler>>)
  {
    && (own.Some? ==> |hs| > 0 && hs[0] == own.value)
    && forall j :: (if own.Some? then 1 else 0) <= j < |hs| ==> hs[j].Caller?
  }

  lemma ShapedSnoc(hs: seq<Listener<ProcessHandler>>, own: Option<Listener<ProcessHandler>>, id: nat)
    requires Shaped(hs, own)
    ensures Shaped(hs + [Caller(id)], own)
  {
  }

  /** Every event's listeners are shaped around its builtin handler. */
  ghost predicate WellShaped(em: Emitter<ProcessHandler>)
  {
    forall e {:trigger Builtin(e)} :: Shaped(ListenersOf(em, e), Builtin(e))
  }

  /** Only the mirror's own handler can head an event's listeners, and it
      decides what delivering that event does to the flags. */
  lemma HeadHandler(hs: seq<Listener<ProcessHandler>>, event: string)
    requires Shaped(hs, Builtin(event))
    ensures hs == [] ==> !EndsConnection(event) && !MarksKilled(event) && event != "disconnected"
    ensures hs != [] ==>
              && (hs[0].DisconnectHandler? <==> event == "disconnected")
              && (hs[0].Own? ==> Builtin(event) == Some(hs[0]))
              && (hs[0].Caller? <==> !EndsConnection(event))
              && (hs[0].DisconnectHandler? || hs[0] == Own(MarkExited) <==> MarksKilled(event))
    ensures hs != [] ==> var rest := hs[1..]; forall j :: 0 <= j < |rest| ==> rest[j].Caller?
  {
    if hs != [] {
      var rest := hs[1..];
      forall j | 0 <= j < |rest|
        ensures rest[j].Caller?
      {
        assert rest[j] == hs[j + 1];
      }
    }
  }

  /** Delivering the head listener and then the rest is delivering them all,
      the disconnect cascade coming first. */
  lemma HeadThenRest(before: seq<Invocation>, em: Emitter<ProcessHandler>, event: string, args: seq<Value>)
    requires Shaped(ListenersOf(em, event), Builtin(event)) && ListenersOf(em, event) != []
    ensures var hs := ListenersOf(em, event);
            before + (if hs[0].DisconnectHandler? then Cascade(em, event, args) else [])
                   + CallerInvocations([hs[0]], event, args) + CallerInvocations(hs[1..], event, args)
            == before + Cascade(em, event, args) + CallerInvocations(hs, event, args)
  {
    var hs := ListenersOf(em, event);
    HeadHandler(hs, event);
    assert hs == [hs[0]] + hs[1..];
    CallerInvocationsConcat([hs[0]], hs[1..], event, args);
  }

  /** Whether the mirror's own handler on `event` marks the process not connected. */
  predicate EndsConnection(event: string)
  {
    Builtin(event).Some?
  }

  /** Whether the mirror's own handler on `event` marks the process killed. */
  predicate MarksKilled(event: string)
  {
    Builtin(event).Some? && Builtin(event).value != Own(ClearConnected)
  }

  /** `exit`, `disconnect` and the lost connection end the connection; only
      `exit` and the lost connection mark the process killed. */
  lemma BuiltinEvents(event: string)
    ensures EndsConnection(event) <==> event == "exit" || event == "disconnect" || event == "disconnected"
    ensures MarksKilled(event) <==> event == "exit" || event == "disconnected"
  {
  }

  /** Only the disconnect handler emits further events. */
  function Rank(event: string): nat
  {
    if event == "disconnected" then 1 else 0
  }

  /** The caller listeners the disconnect handler reaches before the callers
      of `"disconnected"` itself: those of the synthesized `"error"`, then of
      `exit(1)`, then of `close`. */
  function Cascade(em: Emitter<ProcessHandler>, event: string, args: seq<Value>): seq<Invocation>
  {
    if event == "disconnected" then
      Invocations(em, "error", [FirstArg(args)]) + Invocations(em, "exit", [Num(1)]) + Invocations(em, "close", [])
    else []
  }

  class ChildProcess {
    var emitter: Emitter<ProcessHandler>
    /** The calls made on the server proxy, in order. */
    var proxyCalls: seq<ProxyCall>
    /** The caller listeners called so far, in order. */
    var calls: seq<Invocation>
    /** The callbacks of the sends made so far, in order; they stay on the
        client and are not part of the request. */
    var sendCallbacks: seq<Value>
    var pid: int
    var connected: bool
    var killed: bool

    ghost predicate Valid()
      reads this
    {
      WellShaped(emitter)
    }

    /** `new ChildProcess(proxyPromises)`: subscribe to the server's events,
        listen for `"disconnected"`, ask for the pid, and listen for
        `"disconnect"` and `"exit"`; every listener also binds its event on the
        server. */
    constructor ()
      ensures Valid()
      ensures pid == -1 && !connected && !killed
      ensures proxyCalls == [Subscribe, BindDelayedEvent("disconnected"), GetPid,
                             BindDelayedEvent("disconnect"), BindDelayedEvent("exit")]
      ensures calls == [] && sendCallbacks == [] && emitter.internal == []
      ensures forall e :: ListenersOf(emitter, e) == if Builtin(e).Some? then [Builtin(e).value] else []
    {
      var em: Emitter<ProcessHandler> := Emitter(map[], []);
      em := AddListener(em, "disconnected", DisconnectHandler);
      em := AddListener(em, "disconnect", Own(ClearConnected));
      em := AddListener(em, "exit", Own(MarkExited));
      emitter := em;
      proxyCalls := [Subscribe, BindDelayedEvent("disconnected"), GetPid,
                     BindDelayedEvent("disconnect"), BindDelayedEvent("exit")];
      calls, sendCallbacks := [], [];
      pid, connected, killed := -1, false, false;
    }

    /** `on` / `addListener`: register the caller's listener and ask the server
        to bind the event. */
    method On(event: string, id: nat)
      requires Valid()
      modifies this
      ensures sendCallbacks == old(sendCallbacks)
      ensures Valid()
      ensures emitter == AddListener(old(emitter), event, Caller(id))
      ensures proxyCalls == old(proxyCalls) + [BindDelayedEvent(event)]
      ensures calls == old(calls) && pid == old(pid) && connected == old(connected) && killed == old(killed)
    {
      forall e
        ensures Shaped(ListenersOf(AddListener(emitter, event, Caller(id)), e), Builtin(e))
      {
        if e == event {
          ShapedSnoc(ListenersOf(emitter, e), Builtin(e), id);
        }
      }
      emitter := AddListener(emitter, event, Caller(id));
      proxyCalls := proxyCalls + [BindDelayedEvent(event)];
    }

    /** `onInternalError`: listen to errors without counting as an `"error"` listener. */
    method OnInternalError(id: nat)
      requires Valid()
      modifies this
      ensures sendCallbacks == old(sendCallbacks)
      ensures Valid()
      ensures emitter == AddInternalErrorListener(old(emitter), id)
      ensures proxyCalls == old(proxyCalls) && calls == old(calls)
      ensures pid == old(pid) && connected == old(connected) && killed == old(killed)
    {
      emitter := AddInternalErrorListener(emitter, id);
    }

    /** `emit(event, ...args)`. An `"error"` first goes to the internal-error
        channel, then publicly, where it throws if nobody listens. `"exit"`
        marks the process exited, `"disconnect"` marks it disconnected, and
        `"disconnected"` synthesizes an `"error"` that never escapes and then
        `exit(1)` and `close`. Registrations never change. */
    method Emit(event: string, args: seq<Value>) returns (r: Emitted)
      requires Valid()
      modifies this
      ensures sendCallbacks == old(sendCallbacks)
      decreases Rank(event), 5
      ensures Valid()
      ensures emitter == old(emitter) && proxyCalls == old(proxyCalls) && pid == old(pid)
      ensures r == EmitResult(emitter, event, args)
      ensures calls == old(calls) + Cascade(emitter, event, args) + Invocations(emitter, event, args)
      ensures connected == (old(connected) && !EndsConnection(event))
      ensures killed == (old(killed) || MarksKilled(event))
    {
      if event == "error" {
        r := EmitError(args);
      } else {
        DeliverAll(event, args);
        r := Delivered(ListenersOf(emitter, event) != []);
      }
    }

    /** `emit("error", ...args)`: the internal-error channel first, then the
        public listeners, or a throw when there are none. */
    method EmitError(args: seq<Value>) returns (r: Emitted)
      requires Valid()
      modifies this
      ensures sendCallbacks == old(sendCallbacks)
      decreases 0, 4
      ensures Valid()
      ensures emitter == old(emitter) && proxyCalls == old(proxyCalls) && pid == old(pid)
      ensures r == EmitResult(emitter, "error", args)
      ensures calls == old(calls) + Invocations(emitter, "error", args)
      ensures connected == old(connected) && killed == old(killed)
    {
      calls := calls + InternalInvocations(emitter.internal, args);
      if ListenersOf(emitter, "error") == [] {
        r := Threw(FirstArg(args));
      } else {
        DeliverAll("error", args);
        r := Delivered(true);
      }
    }

    /** The public listeners of `event`, called in registration order. */
    method DeliverAll(event: string, args: seq<Value>)
      requires Valid()
      modifies this
      ensures sendCallbacks == old(sendCallbacks)
      decreases Rank(event), 3
      ensures Valid()
      ensures emitter == old(emitter) && proxyCalls == old(proxyCalls) && pid == old(pid)
      ensures calls == old(calls) + Cascade(emitter, event, args) + CallerInvocations(ListenersOf(emitter, event), event, args)
      ensures connected == (old(connected) && !EndsConnection(event))
      ensures killed == (old(killed) || MarksKilled(event))
    {
      var hs := ListenersOf(emitter, event);
      assert Shaped(hs, Builtin(event));
      HeadHandler(hs, event);
      if hs == [] {
        return;
      }
      ghost var before := calls;
      Deliver(event, args, hs[0]);
      CallCallers(event, args, hs[1..]);
      HeadThenRest(before, emitter, event, args);
    }

    /** Caller listeners `callers` of `event` called in order. */
    method CallCallers(event: string, args: seq<Value>, callers: seq<Listener<ProcessHandler>>)
      requires forall j :: 0 <= j < |callers| ==> callers[j].Caller?
      modifies this`calls
      ensures calls == old(calls) + CallerInvocations(callers, event, args)
    {
      var i := 0;
      while i < |callers|
        invariant 0 <= i <= |callers|
        invariant calls == old(calls) + CallerInvocations(callers[..i], event, args)
      {
        assert callers[..i + 1] == callers[..i] + [callers[i]];
        CallerInvocationsSnoc(callers[..i], callers[i], event, args);
        calls := calls + [Invocation(Public(event), callers[i].id, args)];
        i := i + 1;
      }
      assert callers[..i] == callers;
    }

    /** One listener of `event` called with `args`: a caller's is recorded,
        and the mirror's own handlers update the flags. */
    method Deliver(event: string, args: seq<Value>, l: Listener<ProcessHandler>)
      requires Valid()
      requires l.DisconnectHandler? ==> event == "disconnected"
      requires l.Own? ==> Builtin(event) == Some(l)
      modifies this
      ensures sendCallbacks == old(sendCallbacks)
      decreases Rank(event), 2
      ensures Valid()
      ensures emitter == old(emitter) && proxyCalls == old(proxyCalls) && pid == old(pid)
      ensures calls == old(calls) + (if l.DisconnectHandler? then Cascade(emitter, event, args) else [])
                       + CallerInvocations([l], event, args)
      ensures connected == (old(connected) && l.Caller?)
      ensures killed == (old(killed) || l.DisconnectHandler? || l == Own(MarkExited))
    {
      assert [l][..0] == [];
      match l {
        case Caller(id) =>
          calls := calls + [Invocation(Public(event), id, args)];
        case DisconnectHandler =>
          Disconnected(args);
        case Own(ClearConnected) =>
          connected := false;
        case Own(MarkExited) =>
          connected := false;
          killed := true;
      }
    }

    /** The `"disconnected"` listener every mirror registers: emit the error
        (a throw for lack of a listener is swallowed), then `handleDisconnect`. */
    method Disconnected(args: seq<Value>)
      requires Valid()
      modifies this
      ensures sendCallbacks == old(sendCallbacks)
      decreases 1, 1
      ensures Valid()
      ensures emitter == old(emitter) && proxyCalls == old(proxyCalls) && pid == old(pid)
      ensures calls == old(calls) + Cascade(emitter, "disconnected", args)
      ensures !connected && killed
    {
      var _ := Emit("error", [FirstArg(args)]);
      HandleDisconnect();
    }

    /** `handleDisconnect`: emit `exit` with code 1, then `close`. */
    method HandleDisconnect()
      requires Valid()
      modifies this
      ensures sendCallbacks == old(sendCallbacks)
      decreases 0, 6
      ensures Valid()
      ensures emitter == old(emitter) && proxyCalls == old(proxyCalls) && pid == old(pid)
      ensures calls == old(calls) + Invocations(emitter, "exit", [Num(1)]) + Invocations(emitter, "close", [])
      ensures !connected && killed
    {
      var _ := Emit("exit", [Num(1)]);
      var _ := Emit("close", []);
    }

    /** The `getPid` call resolved: record the pid and mark the process connected. */
    method PidResolved(p: int)
      modifies this
      ensures sendCallbacks == old(sendCallbacks)
      ensures pid == p && connected
      ensures killed == old(killed) && emitter == old(emitter)
      ensures proxyCalls == old(proxyCalls) && calls == old(calls)
    {
      pid := p;
      connected := true;
    }

    /** `catch`: a call on the server proxy rejected; the rejection is emitted as `"error"`. */
    method CallRejected(error: Value) returns (r: Emitted)
      requires Valid()
      modifies this
      ensures sendCallbacks == old(sendCallbacks)
      ensures Valid()
      ensures r == EmitResult(emitter, "error", [error])
      ensures emitter == old(emitter) && proxyCalls == old(proxyCalls) && pid == old(pid)
      ensures calls == old(calls) + Invocations(emitter, "error", [error])
      ensures connected == old(connected) && killed == old(killed)
    {
      r := Emit("error", [error]);
    }

    /** `kill()`: marked killed before the call goes to the server. */
    method KillProcess()
      modifies this
      ensures sendCallbacks == old(sendCallbacks)
      ensures killed && proxyCalls == old(proxyCalls) + [Kill]
      ensures pid == old(pid) && connected == old(connected) && emitter == old(emitter) && calls == old(calls)
    {
      killed := true;
      proxyCalls := proxyCalls + [Kill];
    }

    /** `disconnect()`, `ref()` and `unref()` only forward the call. */
    method ForwardCall(call: ProxyCall)
      requires call == Disconnect || call == Ref || call == Unref
      modifies this`proxyCalls
      ensures proxyCalls == old(proxyCalls) + [call]
    {
      proxyCalls := proxyCalls + [call];
    }

    /** `send(message, sendHandle, options, callback)`: throws when a handle or
        options remain after picking the callback; otherwise sends only the
        message to the server, keeps the chosen callback on the client, and
        returns true. */
    method SendMessage(message: Value, sendHandle: Value, options: Value, callback: Value) returns (r: Result<bool>)
      modifies this`proxyCalls, this`sendCallbacks
      ensures match SendCallback(sendHandle, options, callback)
              case Throws(e) =>
                r == Throws(e) && proxyCalls == old(proxyCalls) && sendCallbacks == old(sendCallbacks)
              case Ok(cb) =>
                r == Ok(true) && proxyCalls == old(proxyCalls) + [Send(message)]
                && sendCallbacks == old(sendCallbacks) + [cb]
    {
      var cb := SendCallback(sendHandle, options, callback);
      match cb
      case Throws(e) =>
        r := Throws(e);
      case Ok(f) =>
        proxyCalls := proxyCalls + [Send(message)];
        sendCallbacks := sendCallbacks + [f];
        r := Ok(true);
    }
  }

  const SEND_UNSUPPORTED := Error("sendHandle and options are not supported")

  /** The callback `send` ends up with: a function `sendHandle` takes the
      callback's place, else a function `options` does; whatever handle or
      options remain must be falsy. */
  function SendCallback(sendHandle: Value, options: Value, callback: Value): (r: Result<Value>)
  {
    var (handle, opts, cb) :=
      if sendHandle.Function? then (Undefined, options, sendHandle)
      else if options.Function? then (sendHandle, Undefined, options)
      else (sendHandle, options, callback);
    if Truthy(handle) || Truthy(opts) then Throws(SEND_UNSUPPORTED) else Ok(cb)
  }

  /** The three accepted call shapes of `send`, and what is refused. */
  lemma SendShapes(sendHandle: Value, options: Value, callback: Value)
    ensures sendHandle.Function? ==>
              SendCallback(sendHandle, options, callback) == if Truthy(options) then Throws(SEND_UNSUPPORTED) else Ok(sendHandle)
    ensures !sendHandle.Function? && options.Function? ==>
              SendCallback(sendHandle, options, callback) == if Truthy(sendHandle) then Throws(SEND_UNSUPPORTED) else Ok(options)
    ensures !sendHandle.Function? && !options.Function? ==>
              SendCallback(sendHandle, options, callback)
                == if Truthy(sendHandle) || Truthy(options) then Throws(SEND_UNSUPPORTED) else Ok(callback)
  {
  }

  /** `send` either throws the one unsupported-arguments error or keeps one of
      the three candidates as the callback. */
  lemma SendOutcomes(sendHandle: Value, options: Value, callback: Value)
    ensures var r := SendCallback(sendHandle, options, callback);
            (r.Throws? ==> r.error == SEND_UNSUPPORTED)
            && (r.Ok? ==> r.value == callback || (r.value.Function? && (r.value == sendHandle || r.value == options)))
            && (Truthy(sendHandle) && !sendHandle.Function? ==> r.Throws?)
  {
  }

  /** A call on the server's child_process module. */
  datatype ModuleCall =
    | Exec(command: string, options: Value)
    | Fork(modulePath: string, args: Value, options: Value)
    | Spawn(command: string, args: Value, options: Value)

  /** The `(args, options)` that `fork` and `spawn` pass on: a non-array `args`
      is taken as the options and `args` becomes `undefined`. */
  function ShiftArgs(args: Value, options: Value): (Value, Value)
  {
    if args.Array? then (args, options) else (Undefined, args)
  }

  /** Arrays pass through untouched; anything else ends up as the options, and
      the options given after it are then dropped. */
  lemma ShiftArgsMeaning(args: Value, options: Value)
    ensures var (a, o) := ShiftArgs(args, options);
            (a.Array? <==> args.Array?)
            && (a.Array? ==> a == args && o == options)
            && (!a.Array? ==> a == Undefined && o == args)
  {
  }

  /** The request `fork` sends: the module path, and the arguments and options
      after an options object given in the place of `args` is shifted over. */
  function ForkCall(modulePath: string, args: Value, options: Value): (r: ModuleCall)
    ensures r.Fork? && r.modulePath == modulePath
    ensures args.Array? ==> r.args == args && r.options == options
    ensures !args.Array? ==> r.args == Undefined && r.options == args
  {
    var (a, o) := ShiftArgs(args, options);
    Fork(modulePath, a, o)
  }

  /** The request `spawn` sends, with the same shift of `args` as `fork`. */
  function SpawnCall(command: string, args: Value, options: Value): (r: ModuleCall)
    ensures r.Spawn? && r.command == command
    ensures args.Array? ==> r.args == args && r.options == options
    ensures !args.Array? ==> r.args == Undefined && r.options == args
  {
    var (a, o) := ShiftArgs(args, options);
    Spawn(command, a, o)
  }

  /** The call `exec` makes and the callback it keeps: a function `options`
      is the callback, and no options are sent. The callback never goes to the
      server. */
  function ExecCall(command: string, options: Value, callback: Value): (ModuleCall, Value)
  {
    if options.Function? then (Exec(command, Undefined), options) else (Exec(command, options), callback)
  }

  lemma ExecCallMeaning(command: string, options: Value, callback: Value)
    ensures var (call, cb) := ExecCall(command, options, callback);
            call.Exec? && call.command == command && !call.options.Function?
            && (options.Function? ==> cb == options && call.options == Undefined)
            && (!options.Function? ==> cb == callback && call.options == options)
  {
  }

  /** What the `exec` callback receives as stdout or stderr: a string when
      the encoding is `"utf8"`, a buffer otherwise. */
  datatype Output = Text(text: string) | Bytes(data: string)

  datatype Completion = Completion(error: Option<Error>, stdout: Output, stderr: Output)

  /** The chunks received, joined in order. */
  function Concat(chunks: seq<string>): string
  {
    if chunks == [] then [] else Concat(chunks[..|chunks| - 1]) + chunks[|chunks| - 1]
  }

  /** Joining is associative over the chunk list: output collected in two
      stretches is the two stretches' outputs one after the other. */
  lemma {:induction false} ConcatAppend(a: seq<string>, b: seq<string>)
    ensures Concat(a + b) == Concat(a) + Concat(b)
  {
    if b == [] {
      assert a + b == a;
    } else {
      var init := b[..|b| - 1];
      assert (a + b)[..|a + b| - 1] == a + init;
      ConcatAppend(a, init);
    }
  }

  /** The encoding `exec` uses: the `encoding` property of truthy options, and
      the options value itself when it is falsy. */
  function EncodingOf(options: Value): Value
  {
    if Truthy(options) then Property(options, "encoding") else options
  }

  function Collected(encoding: Value, chunks: seq<string>): Output
  {
    if encoding == Str("utf8") then Text(Concat(chunks)) else Bytes(Concat(chunks))
  }

  /** The arguments of the `exec` callback when the process exits with `code` and `signal`. */
  function ExecCompletion(command: string, code: Value, signal: Value, encoding: Value,
                          stdout: seq<string>, stderr: seq<string>): Completion
  {
    Completion(
      if code != Num(0) || signal != Null then Some(Error("Command failed: " + command)) else None,
      Collected(encoding, stdout),
      Collected(encoding, stderr))
  }

  /** The callback gets an error exactly when the exit code is not 0 or a
      signal is set; the outputs are all chunks in order, as strings only
      under `"utf8"`. */
  lemma ExecCompletionMeaning(command: string, code: Value, signal: Value, encoding: Value,
                              stdout: seq<string>, stderr: seq<string>)
    ensures var c := ExecCompletion(command, code, signal, encoding, stdout, stderr);
            (c.error.Some? <==> code != Num(0) || signal != Null)
            && (c.error.Some? ==> c.error.value.message == "Command failed: " + command)
            && (c.stdout.Text? <==> encoding == Str("utf8")) && c.stdout.Text? == c.stderr.Text?
            && (c.stdout.Text? ==> c.stdout.text == Concat(stdout) && c.stderr.text == Concat(stderr))
            && (c.stdout.Bytes? ==> c.stdout.data == Concat(stdout) && c.stderr.data == Concat(stderr))
  {
  }

  /** The exit code an `exit` listener declared as `(code, signal)` receives:
      the first argument emitted, `undefined` when there is none. */
  function ExitCode(args: seq<Value>): Value
  {
    FirstArg(args)
  }

  /** The signal such a listener receives: the second argument emitted,
      `undefined` when fewer than two were emitted. */
  function ExitSignal(args: seq<Value>): Value
  {
    if |args| >= 2 then args[1] else Undefined
  }

  /** Every `exit` listener a lost connection reaches is called with code 1
      and no signal (`undefined`, not `null`), so an `exec` callback listening
      there reports failure. */
  lemma DisconnectFailsExec(em: Emitter<ProcessHandler>, args: seq<Value>, command: string, encoding: Value,
                            stdout: seq<string>, stderr: seq<string>)
    ensures forall v :: v in Cascade(em, "disconnected", args) && v.channel == Public("exit") ==>
              && v.args == [Num(1)]
              && ExecCompletion(command, ExitCode(v.args), ExitSignal(v.args), encoding, stdout, stderr).error
                 == Some(Error("Command failed: " + command))
  {
    var error := Invocations(em, "error", [FirstArg(args)]);
    var exit := Invocations(em, "exit", [Num(1)]);
    var close := Invocations(em, "close", []);
    CallerInvocationsCount(ListenersOf(em, "error"), "error", [FirstArg(args)], 0);
    CallerInvocationsCount(ListenersOf(em, "exit"), "exit", [Num(1)], 0);
    CallerInvocationsCount(ListenersOf(em, "close"), "close", [], 0);
    forall v | v in Cascade(em, "disconnected", args) && v.channel == Public("exit")
      ensures v.args == [Num(1)]
    {
      assert v in error + exit + close;
      assert v !in error && v !in close;
      assert v in exit;
    }
  }

  /** What `exec` keeps when it is given a callback: the chunks from stdout
      and stderr, and whether its `once("exit")` listener has run. */
  class ExecCapture {
    const command: string
    const encoding: Value
    var stdout: seq<string>
    var stderr: seq<string>
    var exited: bool

    constructor (command: string, options: Value)
      ensures this.command == command && encoding == EncodingOf(options)
      ensures stdout == [] && stderr == [] && !exited
    {
      this.command := command;
      encoding := EncodingOf(options);
      stdout, stderr := [], [];
      exited := false;
    }

    /** A `data` chunk from stdout is pushed. */
    method StdoutData(d: string)
      modifies this`stdout
      ensures stdout == old(stdout) + [d]
      ensures Concat(stdout) == Concat(old(stdout)) + d
    {
      stdout := stdout + [d];
      ConcatAppend(old(stdout), [d]);
    }

    /** A `data` chunk from stderr is pushed. */
    method StderrData(d: string)
      modifies this`stderr
      ensures stderr == old(stderr) + [d]
      ensures Concat(stderr) == Concat(old(stderr)) + d
    {
      stderr := stderr + [d];
      ConcatAppend(old(stderr), [d]);
    }

    /** The process emits `exit`: the first time, the callback is called with
        the completion of everything received so far; later exits reach no one. */
    method Exit(args: seq<Value>) returns (r: Option<Completion>)
      modifies this`exited
      ensures exited
      ensures r == if old(exited) then None
                   else Some(ExecCompletion(command, ExitCode(args), ExitSignal(args), encoding, stdout, stderr))
    {
      if exited {
        r := None;
      } else {
        exited := true;
        r := Some(ExecCompletion(command, ExitCode(args), ExitSignal(args), encoding, stdout, stderr));
      }
    }
  }
}
