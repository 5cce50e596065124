/** The server-side wrapper around an event-emitting instance. It forwards the
    instance's bound events to every registered callback, binds delayed events
    on request, and removes its listeners on dispose. The instance is modelled
    by the listeners the wrapper has attached to it, event by event. */
module ServerEvents {
  import opened Common

  /** A listener the wrapper attached to the instance: the relay (forwarder) that passes
      an event to callback number `callback` (its position in `callbacks`), or
      a done callback registered through `onDone`. */
  datatype Attached = Relay(callback: nat) | Done(cb: nat)

  /** The listeners attached to `event`, in attachment order. */
  function AttachedTo(listeners: map<string, seq<Attached>>, event: string): seq<Attached>
  {
    if event in listeners then listeners[event] else []
  }

  /** Attaching `l` to `event` on the instance puts it at the end of the event's listeners. */
  function Attach(listeners: map<string, seq<Attached>>, event: string, l: Attached): (r: map<string, seq<Attached>>)
    ensures AttachedTo(r, event) == AttachedTo(listeners, event) + [l]
    ensures forall e :: e != event ==> AttachedTo(r, e) == AttachedTo(listeners, e)
  {
    listeners[event := AttachedTo(listeners, event) + [l]]
  }

  /** `n` copies of `l`. */
  function Repeat(l: Attached, n: nat): seq<Attached>
  {
    if n == 0 then [] else Repeat(l, n - 1) + [l]
  }

  /** The forwarders of callbacks `0 .. n-1`, in that order. */
  function ForwardersUpTo(n: nat): seq<Attached>
  {
    if n == 0 then [] else ForwardersUpTo(n - 1) + [Relay(n - 1)]
  }

  /** `n` copies of `l` hold `n` occurrences of `l` and nothing else. */
  lemma {:induction false} RepeatCount(l: Attached, n: nat, x: Attached)
    ensures multiset(Repeat(l, n))[x] == if x == l then n else 0
  {
    if n > 0 {
      RepeatCount(l, n - 1, x);
    }
  }

  /** Each callback below `n` has exactly one forwarder in `ForwardersUpTo(n)`,
      and no other listener occurs there. */
  lemma {:induction false} ForwardersUpToCount(n: nat, x: Attached)
    ensures multiset(ForwardersUpTo(n))[x] == if x.Relay? && x.callback < n then 1 else 0
  {
    if n > 0 {
      ForwardersUpToCount(n - 1, x);
    }
  }

  predicate NoDuplicates(s: seq<string>)
  {
    forall i, j :: 0 <= i < j < |s| ==> s[i] != s[j]
  }

  /** In a list without duplicates an element occurs once or not at all. */
  lemma {:induction false} OccursOnce(s: seq<string>, e: string)
    requires NoDuplicates(s)
    ensures multiset(s)[e] == if e in s then 1 else 0
  {
    if s != [] {
      assert s == [s[0]] + s[1..];
      assert NoDuplicates(s[1..]);
      OccursOnce(s[1..], e);
      if e == s[0] {
        assert e !in s[1..];
      }
    }
  }

  /** Callback `k` is forwarded each event as many times as the event occurs
      in `bindEvents` (once, for a duplicate-free list) when `k` is one of the
      `n` registered callbacks, and never otherwise. */
  ghost predicate Forwarding(listeners: map<string, seq<Attached>>, n: nat, bindEvents: seq<string>)
  {
    forall e, k: nat ::
      multiset(AttachedTo(listeners, e))[Relay(k)] == if k < n then multiset(bindEvents)[e] else 0
  }

  /** One more element of a list adds one occurrence of itself. */
  lemma CountStep(events: seq<string>, i: nat, e: string)
    requires i < |events|
    ensures multiset(events[..i + 1])[e] == multiset(events[..i])[e] + (if e == events[i] then 1 else 0)
  {
    assert events[..i + 1] == events[..i] + [events[i]];
  }

  /** Attaching `l` for one more listed event keeps, for the single event `e`, the
      count of copies of `l` equal to how often `e` occurs in the prefix attached so far. */
  lemma AttachStepAt(start: map<string, seq<Attached>>, before: map<string, seq<Attached>>,
                     events: seq<string>, i: nat, l: Attached, e: string)
    requires i < |events|
    requires AttachedTo(before, e) == AttachedTo(start, e) + Repeat(l, multiset(events[..i])[e])
    ensures AttachedTo(Attach(before, events[i], l), e) == AttachedTo(start, e) + Repeat(l, multiset(events[..i + 1])[e])
  {
    var c := multiset(events[..i])[e];
    CountStep(events, i, e);
    var after := Attach(before, events[i], l);
    if e == events[i] {
      calc {
        AttachedTo(after, e);
        AttachedTo(before, e) + [l];
        (AttachedTo(start, e) + Repeat(l, c)) + [l];
        AttachedTo(start, e) + (Repeat(l, c) + [l]);
        AttachedTo(start, e) + Repeat(l, c + 1);
      }
    } else {
      assert AttachedTo(after, e) == AttachedTo(before, e);
    }
  }

  /** Attaching `l` for one more listed event keeps, for every event at once, the
      count of copies of `l` equal to how often that event occurs in the prefix attached so far. */
  lemma AttachStep(start: map<string, seq<Attached>>, before: map<string, seq<Attached>>,
                   events: seq<string>, i: nat, l: Attached)
    requires i < |events|
    requires forall e :: AttachedTo(before, e) == AttachedTo(start, e) + Repeat(l, multiset(events[..i])[e])
    ensures forall e :: AttachedTo(Attach(before, events[i], l), e) == AttachedTo(start, e) + Repeat(l, multiset(events[..i + 1])[e])
  {
    forall e
      ensures AttachedTo(Attach(before, events[i], l), e) == AttachedTo(start, e) + Repeat(l, multiset(events[..i + 1])[e])
    {
      AttachStepAt(start, before, events, i, l, e);
    }
  }

  /** Registering callback number `n` with one forwarder per occurrence of each
      event in `bindEvents` keeps the forwarding invariant. */
  lemma RegisterKeepsForwarding(listeners: map<string, seq<Attached>>, listeners': map<string, seq<Attached>>,
                                n: nat, bindEvents: seq<string>)
    requires Forwarding(listeners, n, bindEvents)
    requires forall e :: AttachedTo(listeners', e) == AttachedTo(listeners, e) + Repeat(Relay(n), multiset(bindEvents)[e])
    ensures Forwarding(listeners', n + 1, bindEvents)
  {
    forall e, k: nat
      ensures multiset(AttachedTo(listeners', e))[Relay(k)] == if k < n + 1 then multiset(bindEvents)[e] else 0
    {
      RepeatCount(Relay(n), multiset(bindEvents)[e], Relay(k));
    }
  }

  /** Binding an event that was not bound, with one forwarder per registered
      callback, keeps the forwarding invariant. */
  lemma BindKeepsForwarding(listeners: map<string, seq<Attached>>, listeners': map<string, seq<Attached>>,
                            n: nat, bindEvents: seq<string>, event: string)
    requires Forwarding(listeners, n, bindEvents) && event !in bindEvents
    requires AttachedTo(listeners', event) == AttachedTo(listeners, event) + ForwardersUpTo(n)
    requires forall e :: e != event ==> AttachedTo(listeners', e) == AttachedTo(listeners, e)
    ensures Forwarding(listeners', n, bindEvents + [event])
  {
    forall e, k: nat
      ensures multiset(AttachedTo(listeners', e))[Relay(k)] == if k < n then multiset(bindEvents + [event])[e] else 0
    {
      ForwardersUpToCount(n, Relay(k));
      assert multiset(bindEvents)[event] == 0;
    }
  }

  /** Attaching done callbacks never changes what is forwarded. */
  lemma DoneKeepsForwarding(listeners: map<string, seq<Attached>>, listeners': map<string, seq<Attached>>,
                            n: nat, bindEvents: seq<string>, cb: nat, doneEvents: seq<string>)
    requires Forwarding(listeners, n, bindEvents)
    requires forall e :: AttachedTo(listeners', e) == AttachedTo(listeners, e) + Repeat(Done(cb), multiset(doneEvents)[e])
    ensures Forwarding(listeners', n, bindEvents)
  {
    forall e, k: nat
      ensures multiset(AttachedTo(listeners', e))[Relay(k)] == if k < n then multiset(bindEvents)[e] else 0
    {
      RepeatCount(Done(cb), multiset(doneEvents)[e], Relay(k));
    }
  }

  class ServerProxy {
    /** `options.bindEvents`: the events forwarded now; grows in place. */
    var bindEvents: seq<string>
    const doneEvents: seq<string>
    const delayedEvents: Option<seq<string>>
    /** The registered forwarding callbacks, by identity, in registration order. */
    var callbacks: seq<nat>
    /** The listeners attached to the instance, by event. */
    var listeners: map<string, seq<Attached>>
    /** Whether `dispose` has run. */
    ghost var disposed: bool

    /** Until disposal, callback `k` is forwarded each event as many times as
        the event occurs in `bindEvents` (once, for a duplicate-free list), and
        nothing forwards to a callback that was never registered. */
    ghost predicate Valid()
      reads this
    {
      !disposed ==> Forwarding(listeners, |callbacks|, bindEvents)
    }

    constructor (bindEvents: seq<string>, doneEvents: seq<string>, delayedEvents: Option<seq<string>>)
      ensures Valid() && !disposed
      ensures this.bindEvents == bindEvents && this.doneEvents == doneEvents && this.delayedEvents == delayedEvents
      ensures callbacks == [] && listeners == map[]
    {
      this.bindEvents := bindEvents;
      this.doneEvents := doneEvents;
      this.delayedEvents := delayedEvents;
      callbacks := [];
      listeners := map[];
      disposed := false;
    }

    /** Dispose of the instance: every listener it holds is removed. */
    method Dispose()
      modifies this
      ensures listeners == map[] && disposed
      ensures bindEvents == old(bindEvents) && callbacks == old(callbacks)
    {
      listeners := map[];
      disposed := true;
    }

    /** Attach `l` once to every event of `events`, in order. */
    method AttachEach(events: seq<string>, l: Attached)
      modifies this`listeners
      ensures forall e :: AttachedTo(listeners, e) == AttachedTo(old(listeners), e) + Repeat(l, multiset(events)[e])
    {
      var i := 0;
      while i < |events|
        invariant 0 <= i <= |events|
        invariant forall e :: AttachedTo(listeners, e) == AttachedTo(old(listeners), e) + Repeat(l, multiset(events[..i])[e])
      {
        AttachStep(old(listeners), listeners, events, i, l);
        listeners := Attach(listeners, events[i], l);
        i := i + 1;
      }
      assert events[..i] == events;
    }

    /** Register `cb`: attach one forwarder to it for each event bound now.
        Delayed events not yet bound get none. */
    method OnEvent(cb: nat)
      requires Valid()
      modifies this
      ensures Valid() && disposed == old(disposed)
      ensures callbacks == old(callbacks) + [cb] && bindEvents == old(bindEvents)
      ensures forall e :: AttachedTo(listeners, e)
                == AttachedTo(old(listeners), e) + Repeat(Relay(|old(callbacks)|), multiset(bindEvents)[e])
    {
      var k := |callbacks|;
      callbacks := callbacks + [cb];
      AttachEach(bindEvents, Relay(k));
      if !disposed {
        RegisterKeepsForwarding(old(listeners), listeners, k, bindEvents);
      }
    }

    /** Bind a declared delayed event that is not bound yet: it joins
        `bindEvents` and every registered callback gets a forwarder for it.
        Any other event leaves everything as it was. */
    method BindDelayedEvent(event: string)
      requires Valid()
      modifies this
      ensures Valid() && disposed == old(disposed) && callbacks == old(callbacks)
      ensures if delayedEvents.Some? && event in delayedEvents.value && event !in old(bindEvents) then
                && bindEvents == old(bindEvents) + [event]
                && AttachedTo(listeners, event) == AttachedTo(old(listeners), event) + ForwardersUpTo(|callbacks|)
                && forall e :: e != event ==> AttachedTo(listeners, e) == AttachedTo(old(listeners), e)
              else
                bindEvents == old(bindEvents) && listeners == old(listeners)
    {
      if delayedEvents.Some? && event in delayedEvents.value && event !in bindEvents {
        bindEvents := bindEvents + [event];
        var i := 0;
        while i < |callbacks|
          invariant 0 <= i <= |callbacks|
          invariant AttachedTo(listeners, event) == AttachedTo(old(listeners), event) + ForwardersUpTo(i)
          invariant forall e :: e != event ==> AttachedTo(listeners, e) == AttachedTo(old(listeners), e)
          invariant bindEvents == old(bindEvents) + [event] && callbacks == old(callbacks) && disposed == old(disposed)
        {
          listeners := Attach(listeners, event, Relay(i));
          i := i + 1;
        }
        if !disposed {
          BindKeepsForwarding(old(listeners), listeners, |callbacks|, old(bindEvents), event);
        }
      }
    }

    /** Attach the done callback `cb` to every done event. Forwarding is unaffected. */
    method OnDone(cb: nat)
      requires Valid()
      modifies this
      ensures Valid() && disposed == old(disposed)
      ensures callbacks == old(callbacks) && bindEvents == old(bindEvents)
      ensures forall e :: AttachedTo(listeners, e) == AttachedTo(old(listeners), e) + Repeat(Done(cb), multiset(doneEvents)[e])
    {
      AttachEach(doneEvents, Done(cb));
      if !disposed {
        DoneKeepsForwarding(old(listeners), listeners, |callbacks|, bindEvents, cb, doneEvents);
      }
    }
  }

  /** With a duplicate-free `bindEvents` and before disposal, every registered
      callback is forwarded a bound event exactly once and any other event never. */
  lemma ForwardedExactlyOnce(p: ServerProxy, e: string, k: nat)
    requires p.Valid() && !p.disposed && NoDuplicates(p.bindEvents) && k < |p.callbacks|
    ensures multiset(AttachedTo(p.listeners, e))[Relay(k)] == if e in p.bindEvents then 1 else 0
  {
    OccursOnce(p.bindEvents, e);
  }
}
