/** The call batcher: calls made close together are queued and sent to the
    remote side as one call, whose per-position results settle the individual
    promises. Time is not modelled: the idle and ceiling timers are flags that a
    caller fires explicitly, and the remote call's promise settles when a caller
    hands its reply to `Respond`. */
module Batching {
  import opened Common

  /** The promise `add` returned: the remote call (numbered from 0 in flush
      order) its item travels in, and its position in that call's argument list. */
  datatype Ticket = Ticket(call: nat, index: nat)

  /** A queued call: its arguments and the promise whose resolve/reject it holds. */
  datatype Item<A> = Item(args: A, promise: Ticket)

  /** One element of the array the remote call resolves with: a value or an `Error`. */
  datatype ItemResult<T> = Value(value: T) | Failed(error: Error)

  /** How the remote call of one flushed batch settles. */
  datatype Reply<T> = Results(results: seq<ItemResult<T>>) | CallFailed(error: Error)

  /** How one item's promise settles; `Resolved(None)` resolves it with `undefined`. */
  datatype Settlement<T> = Resolved(value: Option<T>) | Rejected(error: Error)

  datatype Timer = Idle | Ceiling

  /** The argument list a remote call receives: the arguments of the queued items, in queue order. */
  function Args<A>(items: seq<Item<A>>): (r: seq<A>)
    ensures |r| == |items|
    ensures forall i :: 0 <= i < |items| ==> r[i] == items[i].args
  {
    seq(|items|, i requires 0 <= i < |items| => items[i].args)
  }

  /** How the item at position `i` of a flushed batch settles: a failed call
      rejects every item; otherwise `results[i]` rejects when it is an `Error`
      and resolves the item with itself otherwise (`undefined` past the end). */
  function SettlementOf<T>(reply: Reply<T>, i: nat): Settlement<T>
  {
    match reply
    case CallFailed(e) => Rejected(e)
    case Results(rs) =>
      if i < |rs| then
        match rs[i]
        case Value(v) => Resolved(Some(v))
        case Failed(e) => Rejected(e)
      else Resolved(None)
  }

  /** The settlements one reply gives the `n` items of remote call `call`. */
  function Settlements<T>(call: nat, n: nat, reply: Reply<T>): (m: map<Ticket, Settlement<T>>)
    ensures forall t :: t in m <==> t.call == call && t.index < n
    ensures forall i :: 0 <= i < n ==> m[Ticket(call, i)] == SettlementOf(reply, i)
  {
    map i | 0 <= i < n :: Ticket(call, i) := SettlementOf(reply, i)
  }

  /** Settling one more item extends the settlements by that item's ticket. */
  lemma SettlementsStep<T>(call: nat, i: nat, reply: Reply<T>)
    ensures Settlements(call, i + 1, reply) == Settlements(call, i, reply)[Ticket(call, i) := SettlementOf(reply, i)]
  {
    var m, m' := Settlements(call, i + 1, reply), Settlements(call, i, reply)[Ticket(call, i) := SettlementOf(reply, i)];
    assert forall t :: t in m <==> t in m';
    assert forall t :: t in m ==> m[t] == m'[t];
  }

  /** Updating a union at a key is updating its right operand there. */
  lemma UnionUpdate<K, V>(a: map<K, V>, b: map<K, V>, k: K, v: V)
    ensures (a + b)[k := v] == a + b[k := v]
  {
    var l, r := (a + b)[k := v], a + b[k := v];
    assert forall x :: x in l <==> x in r;
    assert forall x :: x in l ==> l[x] == r[x];
  }

  /** Item `i` is rejected exactly when the whole call failed or `results[i]`
      is an `Error`, and then with that error. */
  lemma RejectedExactlyOnError<T>(reply: Reply<T>, i: nat)
    ensures SettlementOf(reply, i).Rejected?
        <==> reply.CallFailed? || (i < |reply.results| && reply.results[i].Failed?)
    ensures SettlementOf(reply, i).Rejected? ==>
              SettlementOf(reply, i).error
                == if reply.CallFailed? then reply.error else reply.results[i].error
  {
  }

  /** An item that is not rejected resolves with its own position's value, or
      with `undefined` when the result array is too short. */
  lemma ResolvedWithOwnResult<T>(rs: seq<ItemResult<T>>, i: nat)
    ensures i < |rs| && rs[i].Value? ==> SettlementOf(Results(rs), i) == Resolved(Some(rs[i].value))
    ensures i >= |rs| ==> SettlementOf(Results(rs), i) == Resolved(None)
  {
  }

  /** Error isolation: an item's settlement depends on its own position only,
      so changing a sibling's result never changes it. */
  lemma SiblingsIndependent<T>(rs: seq<ItemResult<T>>, rs': seq<ItemResult<T>>, i: nat)
    requires i < |rs| && i < |rs'| && rs[i] == rs'[i]
    ensures SettlementOf(Results(rs), i) == SettlementOf(Results(rs'), i)
  {
  }

  class Batch<A, T> {
    const maxTime: int
    const maxCount: int
    const idleTime: int

    /** The queued items, in submission order. */
    var batch: seq<Item<A>>
    var idleArmed: bool
    var maxArmed: bool
    /** How many times the idle and the ceiling timer have been started. */
    var idleStarts: nat
    var ceilingStarts: nat

    /** The argument list of every remote call made so far, in flush order. */
    var sent: seq<seq<A>>
    /** The items of each flushed batch whose remote call has not settled yet. */
    var inFlight: map<nat, seq<Item<A>>>
    /** Every promise settled so far. */
    var settled: map<Ticket, Settlement<T>>

    /** The items of remote call `c`, with arguments `args`, hold tickets `(c, 0..)`. */
    static ghost predicate FlushedAs(items: seq<Item<A>>, args: seq<A>, c: nat)
    {
      |items| == |args| && forall i :: 0 <= i < |items| ==> items[i] == Item(args[i], Ticket(c, i))
    }

    /** Promise bookkeeping: queued items hold the tickets of the next remote
        call; each remote call made so far is either in flight or has settled
        every one of its promises, and nothing else has settled. */
    static ghost predicate Bookkeeping(batch: seq<Item<A>>, sent: seq<seq<A>>,
                                       inFlight: map<nat, seq<Item<A>>>, settled: map<Ticket, Settlement<T>>)
    {
      && (forall i :: 0 <= i < |batch| ==> batch[i].promise == Ticket(|sent|, i))
      && (forall c :: c in inFlight ==> c < |sent| && FlushedAs(inFlight[c], sent[c], c))
      && (forall t :: t in settled ==> t.call < |sent| && t.call !in inFlight && t.index < |sent[t.call]|)
      && (forall c, i :: 0 <= c < |sent| && c !in inFlight && 0 <= i < |sent[c]| ==> Ticket(c, i) in settled)
    }

    ghost predicate Tracked()
      reads this
    {
      Bookkeeping(batch, sent, inFlight, settled)
    }

    /** The batching window: both timers are armed exactly while items are
        queued, the queue is always below `maxCount`, and no remote call is
        ever made with an empty argument list. */
    ghost predicate Windowed()
      reads this
    {
      && (idleArmed <==> batch != [])
      && (maxArmed <==> batch != [])
      && (batch == [] || |batch| < maxCount)
      && (forall c :: 0 <= c < |sent| ==> sent[c] != [])
    }

    ghost predicate Valid()
      reads this
    {
      Tracked() && Windowed()
    }

    constructor (maxTime: int := 1000, maxCount: int := 100, idleTime: int := 1)
      ensures Valid()
      ensures this.maxTime == maxTime && this.maxCount == maxCount && this.idleTime == idleTime
      ensures batch == [] && !idleArmed && !maxArmed && idleStarts == 0 && ceilingStarts == 0
      ensures sent == [] && inFlight == map[] && settled == map[]
    {
      this.maxTime := maxTime;
      this.maxCount := maxCount;
      this.idleTime := idleTime;
      batch := [];
      idleArmed, maxArmed := false, false;
      idleStarts, ceilingStarts := 0, 0;
      sent, inFlight, settled := [], map[], map[];
    }

    /** Queue a call. The item goes to the end of the batch; if that brings the
        batch to `maxCount` it is flushed at once and no timer is touched,
        otherwise the idle timer is restarted and the ceiling timer started if
        it is not already running. */
    method Add(args: A) returns (promise: Ticket)
      requires Valid()
      modifies this
      ensures Valid()
      ensures promise == Ticket(|old(sent)|, |old(batch)|)
      ensures settled == old(settled)
      ensures |old(batch)| + 1 >= maxCount ==>
                && batch == []
                && sent == old(sent) + [Args(old(batch)) + [args]]
                && inFlight == old(inFlight)[|old(sent)| := old(batch) + [Item(args, promise)]]
                && idleStarts == old(idleStarts) && ceilingStarts == old(ceilingStarts)
      ensures |old(batch)| + 1 < maxCount ==>
                && batch == old(batch) + [Item(args, promise)]
                && sent == old(sent) && inFlight == old(inFlight)
                && idleStarts == old(idleStarts) + 1
                && ceilingStarts == old(ceilingStarts) + (if old(maxArmed) then 0 else 1)
    {
      promise := Ticket(|sent|, |batch|);
      assert Args(batch + [Item(args, promise)]) == Args(batch) + [args];
      batch := batch + [Item(args, promise)];
      if |batch| >= maxCount {
        Flush();
      } else {
        idleArmed := true;
        idleStarts := idleStarts + 1;
        if !maxArmed {
          maxArmed := true;
          ceilingStarts := ceilingStarts + 1;
        }
      }
    }

    /** Swap the queue for an empty one, stop both timers and make one remote
        call with the queued arguments in submission order. */
    method Flush()
      requires Tracked() && batch != []
      requires forall c :: 0 <= c < |sent| ==> sent[c] != []
      modifies this
      ensures Valid()
      ensures batch == [] && !idleArmed && !maxArmed
      ensures sent == old(sent) + [Args(old(batch))]
      ensures inFlight == old(inFlight)[|old(sent)| := old(batch)]
      ensures settled == old(settled)
      ensures idleStarts == old(idleStarts) && ceilingStarts == old(ceilingStarts)
    {
      idleArmed, maxArmed := false, false;
      var flushed := batch;
      batch := [];
      inFlight := inFlight[|sent| := flushed];
      sent := sent + [Args(flushed)];
    }

    /** An armed timer expires; either timer flushes the batch. */
    method TimerFires(timer: Timer)
      requires Valid()
      requires if timer == Idle then idleArmed else maxArmed
      modifies this
      ensures Valid()
      ensures batch == [] && !idleArmed && !maxArmed
      ensures sent == old(sent) + [Args(old(batch))]
      ensures inFlight == old(inFlight)[|old(sent)| := old(batch)]
      ensures settled == old(settled)
      ensures idleStarts == old(idleStarts) && ceilingStarts == old(ceilingStarts)
    {
      Flush();
    }

    /** Settling every item of an in-flight batch and retiring the batch keeps the bookkeeping. */
    static lemma SettledBatch(batch: seq<Item<A>>, sent: seq<seq<A>>, inFlight: map<nat, seq<Item<A>>>,
                              settled: map<Ticket, Settlement<T>>, call: nat, reply: Reply<T>)
      requires Bookkeeping(batch, sent, inFlight, settled) && call in inFlight
      ensures Bookkeeping(batch, sent, inFlight - {call}, settled + Settlements(call, |inFlight[call]|, reply))
    {
    }

    /** Settle the promise of each item of remote call `call`, one item after
        the other, from the reply's entry at the item's own position. */
    static method SettleEach(items: seq<Item<A>>, call: nat, reply: Reply<T>, settled: map<Ticket, Settlement<T>>)
      returns (done: map<Ticket, Settlement<T>>)
      requires forall i :: 0 <= i < |items| ==> items[i].promise == Ticket(call, i)
      ensures done == settled + Settlements(call, |items|, reply)
    {
      done := settled;
      var i := 0;
      while i < |items|
        invariant 0 <= i <= |items|
        invariant done == settled + Settlements(call, i, reply)
      {
        SettlementsStep(call, i, reply);
        UnionUpdate(settled, Settlements(call, i, reply), Ticket(call, i), SettlementOf(reply, i));
        done := done[items[i].promise := SettlementOf(reply, i)];
        i := i + 1;
      }
    }

    /** The remote call `call` settles with `reply`: every item of that batch is
        settled, in order, according to its own position, and the batch is no
        longer in flight. */
    method Respond(call: nat, reply: Reply<T>)
      requires Valid() && call in inFlight
      modifies this
      ensures Valid()
      ensures inFlight == old(inFlight) - {call}
      ensures settled == old(settled) + Settlements(call, |old(inFlight)[call]|, reply)
      ensures batch == old(batch) && sent == old(sent)
      ensures idleArmed == old(idleArmed) && maxArmed == old(maxArmed)
      ensures idleStarts == old(idleStarts) && ceilingStarts == old(ceilingStarts)
    {
      var done := SettleEach(inFlight[call], call, reply, settled);
      SettledBatch(batch, sent, inFlight, settled, call, reply);
      settled := done;
      inFlight := inFlight - {call};
    }
  }
}
