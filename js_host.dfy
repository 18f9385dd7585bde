/**
 * The host (JavaScript) side of an error crossing: the values a thrown
 * exception can carry, and the construction of a `LibSignalErrorBase`
 * instance, which may fail and then degrades to a plain `Error`.
 */
module JsHost {
  import opened Wrappers

  /** A JavaScript object, identified by reference; its contents are opaque. */
  datatype JsObject = JsObject(id: nat)

  /** A value stored under one key of an exception's extra-properties object. */
  datatype PropValue =
    | Str(s: string)
    | Number(n: int)
    | Address(name: string, deviceId: int)  // a ProtocolAddress converted for the host
    | StringList(items: seq<string>)

  /** The extra-properties object: fixed keys, per-kind values. */
  type Props = map<string, PropValue>

  /**
   * One `LibSignalErrorBase` instance, built from the constructor's four
   * arguments `(message, name, operation, extraProps)`; an absent name or
   * absent extra properties is passed as `undefined`.
   */
  datatype LibSignalError = LibSignalError(
    message: string,
    name: Option<string>,
    operation: string,
    extraProps: Option<Props>)

  /** What a `throw` leaves pending in the host context. */
  datatype Thrown =
    | Constructed(error: LibSignalError)  // a LibSignalErrorBase instance
    | PlainError(message: string)         // a bare host `Error` with this message
    | Rethrown(original: JsObject)        // a previously captured host object, as it was
    | Propagated                          // an exception that was already pending

  /** The message the pending exception carries, when the model knows it. */
  function MessageOf(t: Thrown): Option<string>
  {
    match t
    case Constructed(error) => Some(error.message)
    case PlainError(message) => Some(message)
    case Rethrown(_) => None
    case Propagated => None
  }

  /**
   * `new_js_error`: look up the registered error class and construct one
   * instance. Whether the reflective construction succeeds is the input
   * `constructOk`; on failure there is no instance.
   */
  function NewJsError(
    name: Option<string>, message: string, operation: string,
    extraProps: Option<Props>, constructOk: bool): (r: Option<LibSignalError>)
    ensures r.Some? <==> constructOk
    ensures r.Some? ==> r.value.message == message && r.value.operation == operation
    ensures r.Some? ==> r.value.name == name && r.value.extraProps == extraProps
  {
    if constructOk then Some(LibSignalError(message, name, operation, extraProps)) else None
  }

  /**
   * The tail every `throw` shares: throw the constructed instance, or, when
   * construction failed, still throw a plain error with the same message.
   */
  function Raise(
    name: Option<string>, message: string, operation: string,
    extraProps: Option<Props>, constructOk: bool): (t: Thrown)
    ensures MessageOf(t) == Some(message)
    ensures t.Constructed? <==> constructOk
    ensures !constructOk ==> t == PlainError(message)
    ensures t.Constructed? ==> t.error.name == name && t.error.operation == operation
    ensures t.Constructed? ==> t.error.extraProps == extraProps
  {
    match NewJsError(name, message, operation, extraProps, constructOk)
    case Some(error) => Constructed(error)
    case None => PlainError(message)
  }
}
