/** Two property-lookup objects of the proxying layer: the synchronous face of a
    proxy that is still a promise (`unpromisify`), which makes one forwarder
    per member name and keeps it, and the stand-in for an unimplemented module,
    which passes its own members through and refuses everything else. */
module Forwarding {
  import opened Common

  /** The members every plain object inherits from `Object.prototype`; reading
      one of them finds a function, so no forwarder is made for it. */
  const ObjectPrototype: set<string> := {
    "constructor", "hasOwnProperty", "isPrototypeOf", "propertyIsEnumerable",
    "toLocaleString", "toString", "valueOf", "__proto__",
    "__defineGetter__", "__defineSetter__", "__lookupGetter__", "__lookupSetter__"
  }

  /** What reading a member of the unpromisified proxy yields: an inherited
      member, or forwarder number `id`, made for the member `name`. */
  datatype Member = Inherited(name: string) | Forwarder(id: nat, name: string)

  /** What calling a forwarder does once the proxy promise has resolved: call
      the member of the same name on the proxy, or yield `undefined` when the
      promise resolved to nothing. */
  datatype Forwarded = Called(proxy: ProxyId, name: string, args: seq<Value>) | NoProxy

  /** Calling forwarder `f` with `args` once the proxy promise resolved to
      `resolved`: the call goes to the member the forwarder was made for. */
  function Forward(resolved: Option<ProxyId>, f: Member, args: seq<Value>): (r: Forwarded)
    requires f.Forwarder?
    ensures r.NoProxy? <==> resolved.None?
    ensures r.Called? ==> r.proxy == resolved.value && r.name == f.name && r.args == args
  {
    match resolved
    case None => NoProxy
    case Some(p) => Called(p, f.name, args)
  }

  /** The cache object behind `unpromisify`: the forwarder made for each name. */
  class Unpromisified {
    var cache: map<string, nat>
    /** How many forwarders have been made; the next one gets this number. */
    var made: nat

    ghost predicate Valid()
      reads this
    {
      && (forall n :: n in cache ==> n !in ObjectPrototype && cache[n] < made)
      && (forall n, m :: n in cache && m in cache && n != m ==> cache[n] != cache[m])
    }

    constructor ()
      ensures Valid() && cache == map[] && made == 0
    {
      cache := map[];
      made := 0;
    }

    /** `proxy[name]`: an inherited member as it is; otherwise the forwarder
        already made for `name`, or a new one, which is kept. */
    method Get(name: string) returns (r: Member)
      requires Valid()
      modifies this
      ensures Valid()
      ensures name in ObjectPrototype ==> r == Inherited(name) && cache == old(cache) && made == old(made)
      ensures name !in ObjectPrototype && name in old(cache) ==>
                r == Forwarder(old(cache)[name], name) && cache == old(cache) && made == old(made)
      ensures name !in ObjectPrototype && name !in old(cache) ==>
                r == Forwarder(old(made), name) && cache == old(cache)[name := old(made)] && made == old(made) + 1
    {
      if name in ObjectPrototype {
        r := Inherited(name);
      } else if name in cache {
        r := Forwarder(cache[name], name);
      } else {
        r := Forwarder(made, name);
        cache := cache[name := made];
        made := made + 1;
      }
    }
  }

  /** Reading the same name twice gives the same forwarder, and two names
      that are not inherited get two different forwarders. */
  method SameForwarderTwice(name: string, other: string) returns (first: Member, again: Member, second: Member)
    ensures first == again
    ensures name !in ObjectPrototype ==> first.Forwarder?
    ensures name !in ObjectPrototype && other !in ObjectPrototype && name != other ==>
              first.Forwarder? && second.Forwarder? && first.id != second.id
  {
    var p := new Unpromisified();
    first := p.Get(name);
    second := p.Get(other);
    again := p.Get(name);
  }

  /** Reading `name` on a fresh unpromisified proxy, reading it again, and
      calling the forwarder the second read returned: the cached forwarder
      calls the proxy's own member `name` with the arguments, or yields
      `undefined` when the proxy promise resolved to nothing. */
  method CallForwarder(name: string, resolved: Option<ProxyId>, args: seq<Value>) returns (r: Forwarded)
    requires name !in ObjectPrototype
    ensures resolved.Some? ==> r == Called(resolved.value, name, args)
    ensures resolved.None? ==> r == NoProxy
  {
    var p := new Unpromisified();
    var first := p.Get(name);
    var cached := p.Get(name);
    r := Forward(resolved, cached, args);
  }

  /** Reading `prop` on the stand-in for the unimplemented module `stub`: a
      member the stand-in has passes through, any other read throws an error
      naming the stub and the member. `members` is every name the `in`
      operator finds on the stand-in, so it includes the inherited ones
      (`toString`, `constructor` and the stand-in's own methods), as
      `ObjectPrototype` does for the unpromisified proxy. */
  function Lookup(stub: string, members: map<string, Value>, prop: string): (r: Result<Value>)
    ensures r.Ok? <==> prop in members
    ensures r.Ok? ==> r.value == members[prop]
    ensures r.Throws? ==> r.error.message == NotImplementedMessage(stub, prop)
  {
    if prop in members then Ok(members[prop]) else Throws(Error(NotImplementedMessage(stub, prop)))
  }

  function NotImplementedMessage(stub: string, prop: string): string
  {
    "not implemented: " + stub + "->" + prop
  }

  /** The message of a refused read tells which member of the stub was read. */
  lemma NotImplementedNamesMember(stub: string, p: string, q: string)
    requires NotImplementedMessage(stub, p) == NotImplementedMessage(stub, q)
    ensures p == q
  {
    var prefix := "not implemented: " + stub + "->";
    assert NotImplementedMessage(stub, p) == prefix + p;
    assert NotImplementedMessage(stub, q) == prefix + q;
    assert p == (prefix + p)[|prefix|..];
    assert q == (prefix + q)[|prefix|..];
  }
}
