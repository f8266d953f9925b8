/** The host-language vocabulary the core is written against: captured
    values, the handful of built-ins the core applies to them, the
    exceptions it raises, and the usual Option/Result wrappers. */
module PyRuntime {

  datatype Option<+T> = None | Some(value: T)

  /** A Python exception, by class and message. `Raised` stands for any
      exception thrown by code outside the model (an adapter, a processor,
      a custom renderer). */
  datatype PyError =
    | ValueError(message: string)
    | FileNotFoundError(message: string)
    | AttributeError(message: string)
    | TypeError(message: string)
    | Raised(className: string, message: string)

  /** The outcome of a call that either returns a value or raises. */
  datatype Result<+T> = Success(value: T) | Failure(error: PyError)

  /** A captured value. `PyNone` is `None`, `Dict` is a str-keyed dict (the
      core itself builds only the empty one); every other object is known
      by identity alone. */
  datatype Value = PyNone | Dict(entries: map<string, Value>) | Object(id: nat)

  /** The built-ins the core calls on captured values, left uninterpreted:
      whether `json.dumps(v)` succeeds, `type(v).__name__`, `repr(v)`,
      `str(v)` and `bool(v)`. */
  datatype Builtins = Builtins(
    jsonSerializable: Value -> bool,
    typeName: Value -> string,
    repr: Value -> string,
    str: Value -> string,
    truthy: Value -> bool)
}
