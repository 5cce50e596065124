/** The client-side mirror's local event surface: a listener registry per event
    name, a private internal-error channel that is not counted as a listener,
    and the rule that a public `"error"` with no listener throws. The mirror's
    own subclass installs handlers of type `H`; `DisconnectHandler` is the one
    every mirror that binds events registers on `"disconnected"`. */
module ClientProxy {
  import opened Common

  /** Where a listener was registered: a public event, or the internal-error channel. */
  datatype Channel = Public(name: string) | InternalError

  /** A listener on the public surface: a caller's (by identity), the
      disconnect handler, or a handler the subclass installed itself. */
  datatype Listener<H> = Caller(id: nat) | DisconnectHandler | Own(handler: H)

  /** The registry: public listeners by event, and the internal-error listeners. */
  datatype Emitter<H> = Emitter(listeners: map<string, seq<Listener<H>>>, internal: seq<nat>)

  /** A caller's listener called with `args`, through `channel`. */
  datatype Invocation = Invocation(channel: Channel, listener: nat, args: seq<Value>)

  /** What `emit` does: returns whether the event had listeners, or throws. */
  datatype Emitted = Delivered(hadListeners: bool) | Threw(error: Value)

  function ListenersOf<H>(em: Emitter<H>, event: string): seq<Listener<H>>
  {
    if event in em.listeners then em.listeners[event] else []
  }

  /** `super.on(event, l)`: `l` goes last among the event's listeners. */
  function AddListener<H>(em: Emitter<H>, event: string, l: Listener<H>): (r: Emitter<H>)
    ensures ListenersOf(r, event) == ListenersOf(em, event) + [l]
    ensures forall e :: e != event ==> ListenersOf(r, e) == ListenersOf(em, e)
    ensures r.internal == em.internal
  {
    em.(listeners := em.listeners[event := ListenersOf(em, event) + [l]])
  }

  /** `onInternalError(listener)`: a listener on the internal-error channel only. */
  function AddInternalErrorListener<H>(em: Emitter<H>, id: nat): (r: Emitter<H>)
    ensures r.internal == em.internal + [id]
    ensures forall e :: ListenersOf(r, e) == ListenersOf(em, e)
  {
    em.(internal := em.internal + [id])
  }

  /** The first argument of an emit, `undefined` when there is none. */
  function FirstArg(args: seq<Value>): Value
  {
    if args == [] then Undefined else args[0]
  }

  /** A public `"error"` with no public listener is unhandled. */
  predicate Unhandled<H>(em: Emitter<H>, event: string)
  {
    event == "error" && ListenersOf(em, event) == []
  }

  /** The result `emit(event, ...args)` returns or throws. */
  function EmitResult<H>(em: Emitter<H>, event: string, args: seq<Value>): Emitted
  {
    if Unhandled(em, event) then Threw(FirstArg(args)) else Delivered(ListenersOf(em, event) != [])
  }

  /** The caller listeners among `hs` called with `args`, in order, for a public `event`. */
  function CallerInvocations<H>(hs: seq<Listener<H>>, event: string, args: seq<Value>): (r: seq<Invocation>)
  {
    if hs == [] then []
    else
      CallerInvocations(hs[..|hs| - 1], event, args)
      + (match hs[|hs| - 1]
         case Caller(id) => [Invocation(Public(event), id, args)]
         case _ => [])
  }

  /** The internal-error listeners `ids` called with `args`, in order. */
  function InternalInvocations(ids: seq<nat>, args: seq<Value>): seq<Invocation>
  {
    seq(|ids|, i requires 0 <= i < |ids| => Invocation(InternalError, ids[i], args))
  }

  /** The caller listeners one `emit(event, ...args)` reaches, in order: for
      `"error"` the internal-error listeners come first, then the public ones. */
  function Invocations<H>(em: Emitter<H>, event: string, args: seq<Value>): seq<Invocation>
  {
    (if event == "error" then InternalInvocations(em.internal, args) else [])
    + CallerInvocations(ListenersOf(em, event), event, args)
  }

  /** Calling one more listener adds its invocation, if it is a caller's. */
  lemma CallerInvocationsSnoc<H>(hs: seq<Listener<H>>, l: Listener<H>, event: string, args: seq<Value>)
    ensures CallerInvocations(hs + [l], event, args)
         == CallerInvocations(hs, event, args) + CallerInvocations([l], event, args)
  {
    assert (hs + [l])[..|hs + [l]| - 1] == hs;
  }

  /** Calling two runs of listeners one after the other reaches the callers of each, in order. */
  lemma {:induction false} CallerInvocationsConcat<H>(a: seq<Listener<H>>, b: seq<Listener<H>>, event: string, args: seq<Value>)
    ensures CallerInvocations(a + b, event, args) == CallerInvocations(a, event, args) + CallerInvocations(b, event, args)
  {
    if b == [] {
      assert a + b == a;
    } else {
      var init := b[..|b| - 1];
      assert (a + b)[..|a + b| - 1] == a + init;
      CallerInvocationsConcat(a, init, event, args);
    }
  }

  /** A caller listener is reached exactly as often as it was registered on the
      event, and nothing else is reached. */
  lemma {:induction false} CallerInvocationsCount<H>(hs: seq<Listener<H>>, event: string, args: seq<Value>, id: nat)
    ensures multiset(CallerInvocations(hs, event, args))[Invocation(Public(event), id, args)]
         == multiset(hs)[Caller(id)]
    ensures forall v :: v in CallerInvocations(hs, event, args) ==> v.channel == Public(event) && v.args == args
  {
    if hs != [] {
      var init := hs[..|hs| - 1];
      CallerInvocationsCount(init, event, args, id);
      assert hs == init + [hs[|hs| - 1]];
    }
  }

  /** The internal-error channel never counts as a listener: adding to it
      neither prevents an unhandled `"error"` from throwing nor changes any
      public emit's result. */
  lemma InternalListenersDoNotHandle<H>(em: Emitter<H>, id: nat, event: string, args: seq<Value>)
    ensures EmitResult(AddInternalErrorListener(em, id), event, args) == EmitResult(em, event, args)
  {
  }

  /** A public `"error"` listener stops `"error"` from throwing, and only
      `"error"` can throw. */
  lemma ErrorListenerHandles<H>(em: Emitter<H>, l: Listener<H>, event: string, args: seq<Value>)
    ensures !EmitResult(AddListener(em, "error", l), "error", args).Threw?
    ensures event != "error" ==> EmitResult(em, event, args) == Delivered(ListenersOf(em, event) != [])
  {
  }

  /** On `"error"`, every internal-error listener is called, first and in order,
      whatever happens on the public channel. */
  lemma InternalErrorFirst<H>(em: Emitter<H>, args: seq<Value>)
    ensures |Invocations(em, "error", args)| >= |em.internal|
    ensures forall i :: 0 <= i < |em.internal| ==>
              Invocations(em, "error", args)[i] == Invocation(InternalError, em.internal[i], args)
  {
  }
}
