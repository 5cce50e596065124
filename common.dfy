/** Values shared by the proxying layer: optional values, thrown errors, the few
    JavaScript values the modelled code inspects, and the identifiers that route
    a call to the object it is meant for. */
module Common {

  datatype Option<T> = None | Some(value: T)

  /** An `Error` object; only its message is observed. */
  datatype Error = Error(message: string)

  /** The outcome of a call that may throw synchronously. */
  datatype Result<T> = Ok(value: T) | Throws(error: Error)

  /** A JavaScript value as far as the modelled code looks at it: `typeof`,
      `Array.isArray`, truthiness, strict equality and property reads. Numbers are
      integers; functions and objects carry an identity. */
  datatype Value =
    | Undefined
    | Null
    | Bool(b: bool)
    | Num(n: int)
    | Str(s: string)
    | Function(fid: nat)
    | Array(elems: seq<Value>)
    | Object(oid: nat, fields: map<string, Value>)
    | ErrorObject(error: Error)

  /** JavaScript truthiness: `undefined`, `null`, `false`, `0` and `""` are falsy. */
  predicate Truthy(v: Value)
  {
    match v
    case Undefined => false
    case Null => false
    case Bool(b) => b
    case Num(n) => n != 0
    case Str(s) => s != ""
    case _ => true
  }

  /** `v.key` for an object `v`; `undefined` for a missing key or a non-object. */
  function Property(v: Value, key: string): Value
  {
    if v.Object? && key in v.fields then v.fields[key] else Undefined
  }

  /** The well-known module proxies (the `Module` enum of the source). */
  datatype Module =
    | Buffer | ChildProcess | Crypto | Events | Fs | Net | Os | Path
    | Process | Stream | StringDecoder | Timers | Tty | Util

  /** A `proxyId`: a well-known module, or the number the server issued for a live instance. */
  datatype ProxyId = WellKnown(kind: Module) | Instance(id: nat)
}
