/** Concrete runs of the modelled objects, each stating its whole outcome. */
module Scenarios {
  import opened Common
  import opened Batching
  import opened ServerEvents
  import opened ClientProxy
  import opened ChildProcessClient

  /** Three calls inside one idle window go out as one batch, in submission order. */
  method BatchKeepsOrder(a: int, b: int, c: int) returns (sent: seq<seq<int>>, tickets: seq<Ticket>)
    ensures sent == [[a, b, c]]
    ensures tickets == [Ticket(0, 0), Ticket(0, 1), Ticket(0, 2)]
  {
    var q := new Batch<int, int>();
    var ta := q.Add(a);
    var tb := q.Add(b);
    var tc := q.Add(c);
    ghost var items := q.batch;
    assert Args(items) == [a, b, c];
    assert q.idleArmed;
    q.TimerFires(Idle);
    sent, tickets := q.sent, [ta, tb, tc];
  }

  /** With `maxCount` 2 the second call flushes at once, and nothing stays armed. */
  method FullBatchFlushes(a: int, b: int) returns (sent: seq<seq<int>>, waiting: nat, armed: bool)
    ensures sent == [[a, b]] && waiting == 0 && !armed
  {
    var q := new Batch<int, int>(1000, 2, 1);
    var ta := q.Add(a);
    assert q.batch == [Item(a, ta)];
    assert Args([Item(a, ta)]) == [a];
    var _ := q.Add(b);
    assert q.sent == [] + [[a] + [b]];
    assert [a] + [b] == [a, b];
    assert [] + [[a, b]] == [[a, b]];
    assert !q.idleArmed && !q.maxArmed;
    sent, waiting, armed := q.sent, |q.batch|, q.idleArmed || q.maxArmed;
  }

  /** An error in the middle of the results rejects only the middle call. */
  method ErrorIsolation(e: Error) returns (s0: Settlement<int>, s1: Settlement<int>, s2: Settlement<int>)
    ensures s0 == Resolved(Some(10)) && s1 == Rejected(e) && s2 == Resolved(Some(30))
  {
    var q := new Batch<int, int>();
    var t0 := q.Add(1);
    var t1 := q.Add(2);
    var t2 := q.Add(3);
    assert t0 == Ticket(0, 0) && t1 == Ticket(0, 1) && t2 == Ticket(0, 2);
    q.TimerFires(Ceiling);
    assert |q.inFlight[0]| == 3;
    var reply := Results([Value(10), Failed(e), Value(30)]);
    q.Respond(0, reply);
    assert q.settled == map[] + Settlements(0, 3, reply);
    s0, s1, s2 := q.settled[t0], q.settled[t1], q.settled[t2];
  }

  /** A failed call rejects every call of its batch and leaves the next batch pending. */
  method WholeCallFails(e: Error) returns (s0: Settlement<int>, s1: Settlement<int>, pending: bool)
    ensures s0 == Rejected(e) && s1 == Rejected(e) && pending
  {
    var q := new Batch<int, int>();
    var t0 := q.Add(1);
    var t1 := q.Add(2);
    assert t0 == Ticket(0, 0) && t1 == Ticket(0, 1);
    q.TimerFires(Idle);
    assert |q.inFlight[0]| == 2;
    var t2 := q.Add(3);
    assert t2 == Ticket(1, 0);
    q.TimerFires(Idle);
    q.Respond(0, CallFailed(e));
    assert q.settled == map[] + Settlements(0, 2, CallFailed(e));
    s0, s1, pending := q.settled[t0], q.settled[t1], t2 !in q.settled;
  }

  /** A delayed `data` event is forwarded only once it is bound, and binding it
      again changes nothing. */
  method LazyBinding() returns (before: seq<Attached>, after: seq<Attached>,
                                 again: seq<Attached>)
    ensures before == [] && after == [Relay(0)] && again == after
  {
    var p := new ServerProxy(["close"], [], Some(["data", "end"]));
    assert multiset(["close"])["data"] == 0;
    p.OnEvent(0);
    before := AttachedTo(p.listeners, "data");
    assert before == [];
    assert "data" in ["data", "end"] && "data" !in ["close"];
    assert ForwardersUpTo(1) == [Relay(0)];
    p.BindDelayedEvent("data");
    after := AttachedTo(p.listeners, "data");
    assert "data" in p.bindEvents;
    p.BindDelayedEvent("data");
    again := AttachedTo(p.listeners, "data");
  }

  /** A done callback is attached after the forwarders already on its event. */
  method DoneAfterForwarder() returns (closeListeners: seq<Attached>)
    ensures closeListeners == [Relay(0), Done(1)]
  {
    var p := new ServerProxy(["close"], ["close"], None);
    ghost var start := p.listeners;
    p.OnEvent(0);
    ghost var afterOn := p.listeners;
    p.OnDone(1);
    CloseOrder(start, afterOn, p.listeners);
    closeListeners := AttachedTo(p.listeners, "close");
  }

  /** The `close` listeners after one forwarder and then one done callback are attached to it. */
  lemma CloseOrder(start: map<string, seq<Attached>>, afterOn: map<string, seq<Attached>>,
                   afterDone: map<string, seq<Attached>>)
    requires start == map[]
    requires forall e :: AttachedTo(afterOn, e) == AttachedTo(start, e) + Repeat(Relay(0), multiset(["close"])[e])
    requires forall e :: AttachedTo(afterDone, e) == AttachedTo(afterOn, e) + Repeat(Done(1), multiset(["close"])[e])
    ensures AttachedTo(afterDone, "close") == [Relay(0), Done(1)]
  {
    assert multiset(["close"])["close"] == 1;
    assert Repeat(Relay(0), 1) == [Relay(0)];
    assert Repeat(Done(1), 1) == [Done(1)];
    assert AttachedTo(afterOn, "close") == [Relay(0)];
  }

  /** Losing the connection with no error listener: the synthesized error is
      swallowed, the process is killed and disconnected, and the caller's
      `exit` listener hears code 1 before its `close` listener is called. */
  method DisconnectWithoutErrorListener(pid: int) returns (r: Emitted, killed: bool, connected: bool, heard: seq<Invocation>)
    ensures r == Delivered(true) && killed && !connected
    ensures heard == [Invocation(Public("exit"), 1, [Num(1)]), Invocation(Public("close"), 2, [])]
  {
    var cp := new ChildProcess();
    ghost var em0 := cp.emitter;
    cp.PidResolved(pid);
    cp.On("exit", 1);
    cp.On("close", 2);
    ghost var em := cp.emitter;
    CallerSetup(em0, em);
    var args := [ErrorObject(Error("disconnected"))];
    DisconnectHeard(em, args);
    r := cp.Emit("disconnected", args);
    killed, connected, heard := cp.killed, cp.connected, cp.calls;
  }

  /** The listeners of a fresh process after the caller listens to `exit` (as 1) and `close` (as 2). */
  lemma CallerSetup(em0: Emitter<ProcessHandler>, em: Emitter<ProcessHandler>)
    requires em0.internal == []
    requires forall e :: ListenersOf(em0, e) == if Builtin(e).Some? then [Builtin(e).value] else []
    requires em == AddListener(AddListener(em0, "exit", Caller(1)), "close", Caller(2))
    ensures em.internal == [] && ListenersOf(em, "error") == []
    ensures ListenersOf(em, "disconnected") == [DisconnectHandler]
    ensures ListenersOf(em, "exit") == [Own(MarkExited), Caller(1)]
    ensures ListenersOf(em, "close") == [Caller(2)]
  {
    assert ListenersOf(em0, "error") == [];
    assert ListenersOf(em0, "disconnected") == [DisconnectHandler];
    assert ListenersOf(em0, "exit") == [Own(MarkExited)];
    assert ListenersOf(em0, "close") == [];
  }

  /** What a lost connection delivers when only `exit` and `close` have caller listeners. */
  lemma DisconnectHeard(em: Emitter<ProcessHandler>, args: seq<Value>)
    requires em.internal == [] && ListenersOf(em, "error") == []
    requires ListenersOf(em, "disconnected") == [DisconnectHandler]
    requires ListenersOf(em, "exit") == [Own(MarkExited), Caller(1)]
    requires ListenersOf(em, "close") == [Caller(2)]
    ensures EmitResult(em, "disconnected", args) == Delivered(true)
    ensures [] + Cascade(em, "disconnected", args) + Invocations(em, "disconnected", args)
         == [Invocation(Public("exit"), 1, [Num(1)]), Invocation(Public("close"), 2, [])]
  {
    var exit := Invocation(Public("exit"), 1, [Num(1)]);
    var close := Invocation(Public("close"), 2, []);
    assert InternalInvocations([], [FirstArg(args)]) == [];
    assert Invocations(em, "error", [FirstArg(args)]) == [];
    assert CallerInvocations<ProcessHandler>([Own(MarkExited)], "exit", [Num(1)]) == [] by {
      assert [Own(MarkExited)][..0] == [];
    }
    assert CallerInvocations([Own(MarkExited), Caller(1)], "exit", [Num(1)]) == [exit] by {
      CallerInvocationsSnoc([Own(MarkExited)], Caller(1), "exit", [Num(1)]);
    }
    assert Invocations(em, "exit", [Num(1)]) == [exit];
    assert CallerInvocations<ProcessHandler>([Caller(2)], "close", []) == [close] by {
      CallerInvocationsSnoc<ProcessHandler>([], Caller(2), "close", []);
    }
    assert Invocations(em, "close", []) == [close];
    var handler: seq<ClientProxy.Listener<ProcessHandler>> := [DisconnectHandler];
    assert CallerInvocations(handler, "disconnected", args) == [] by {
      assert handler[..0] == [];
    }
    assert Invocations(em, "disconnected", args) == [];
    assert Cascade(em, "disconnected", args) == [exit, close];
  }

  /** A rejected request reaches the internal-error listener and then throws,
      since nobody listens publicly. */
  method RejectionWithInternalListenerOnly(v: Value) returns (r: Emitted, heard: seq<Invocation>)
    ensures r == Threw(v) && heard == [Invocation(InternalError, 7, [v])]
  {
    var cp := new ChildProcess();
    cp.OnInternalError(7);
    r := cp.CallRejected(v);
    heard := cp.calls;
  }

  /** `exec` with the `"utf8"` encoding joins its chunks and reports a non-zero exit once. */
  method ExecFailsOnce() returns (first: Option<Completion>, second: Option<Completion>)
    ensures first == Some(Completion(Some(Error("Command failed: ls")), Text("ab"), Text("")))
    ensures second == None
  {
    var options := Object(0, map["encoding" := Str("utf8")]);
    assert EncodingOf(options) == Str("utf8");
    var x := new ExecCapture("ls", options);
    x.StdoutData("a");
    x.StdoutData("b");
    FailedCompletion();
    first := x.Exit([Num(2), Null]);
    second := x.Exit([Num(0), Null]);
  }

  /** The callback arguments of `exec("ls")` under `"utf8"` after stdout chunks `a`, `b` and exit code 2. */
  lemma FailedCompletion()
    ensures ExecCompletion("ls", Num(2), Null, Str("utf8"), ["a", "b"], [])
         == Completion(Some(Error("Command failed: ls")), Text("ab"), Text(""))
  {
    assert Concat(["a", "b"]) == "ab" by {
      ConcatAppend(["a"], ["b"]);
      assert Concat(["a"]) == Concat([]) + "a";
    }
    assert "Command failed: " + "ls" == "Command failed: ls";
  }
}
