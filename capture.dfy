/**
 * Host-thrown exception capture. A value thrown by a host callback is kept
 * in a `ThrownException`, carried inside a `std::io::Error` of kind `Other`
 * through native code, and taken out exactly once when control re-enters the
 * host, leaving the default (an empty string) behind.
 */
module Capture {
  import opened Wrappers
  import opened JsHost

  /** A value thrown by host code. */
  datatype JsValue =
    | ErrorValue(obj: JsObject)                    // an instance of the host's Error
    | StringValue(s: string)                       // a host string
    | OtherValue(obj: JsObject, stringified: string)  // anything else, with its host stringification

  /** The captured value: a rooted Error object or a string. */
  datatype ThrownException = Error(root: JsObject) | String(s: string)

  /** `ThrownException::from_value`: keep Error objects by reference, everything else as text. */
  function FromValue(v: JsValue): (t: ThrownException)
    ensures t.Error? <==> v.ErrorValue?
    ensures v.ErrorValue? ==> t.root == v.obj
    ensures v.StringValue? ==> t.String? && t.s == v.s
    ensures v.OtherValue? ==> t.String? && t.s == v.stringified
  {
    match v
    case ErrorValue(obj) => Error(obj)
    case StringValue(s) => String(s)
    case OtherValue(_, stringified) => String(stringified)
  }

  /** `Default for ThrownException`: an empty string, never an object. */
  function Default(): (t: ThrownException)
    ensures !t.Error? && t.s == ""
  {
    String("")
  }

  /** `From<&str> for ThrownException`. */
  function FromStr(value: string): (t: ThrownException)
    ensures t.String? && t.s == value
  {
    String(value)
  }

  /** A string thrown by a callback is captured exactly as `From<&str>` would build it. */
  lemma FromValueOfString(s: string)
    ensures FromValue(StringValue(s)) == FromStr(s)
  {
  }

  /** The kind of a `std::io::Error`; only `Other` matters here. */
  datatype IoErrorKind = Other | Specific(name: string)

  /**
   * The boxed error inside a custom `std::io::Error`: either a captured host
   * exception, or some other native error the downcast does not recognise.
   */
  datatype CustomError = Captured(exception: ThrownException) | Foreign(detail: string)

  /** A `std::io::Error` as a value: its kind and its boxed error, if it is a custom one. */
  datatype IoErrorValue = IoErrorValue(kind: IoErrorKind, custom: Option<CustomError>)

  /**
   * What `std::io::Error::throw` takes out: the captured exception, only when
   * the kind is `Other` and the boxed error downcasts to `ThrownException`.
   */
  function Taken(kind: IoErrorKind, custom: Option<CustomError>): (r: Option<ThrownException>)
    ensures r.Some? <==> kind == Other && custom.Some? && custom.value.Captured?
    ensures r.Some? ==> r.value == custom.value.exception
  {
    if kind == Other && custom.Some? && custom.value.Captured? then Some(custom.value.exception) else None
  }

  /** What `std::mem::take` leaves in the box: the default where something was taken. */
  function Remaining(kind: IoErrorKind, custom: Option<CustomError>): (r: Option<CustomError>)
    ensures Taken(kind, custom).Some? ==> r == Some(Captured(Default()))
    ensures Taken(kind, custom).None? ==> r == custom
  {
    if Taken(kind, custom).Some? then Some(Captured(Default())) else custom
  }

  /**
   * The rethrow dispatch: a captured Error object is rethrown unchanged, a
   * captured string becomes a plain error with that message, and with nothing
   * captured the io error's own text becomes the message.
   */
  function Rethrow(taken: Option<ThrownException>, description: string): (t: Thrown)
    ensures t.Rethrown? <==> taken.Some? && taken.value.Error?
    ensures t.Rethrown? ==> t.original == taken.value.root
    ensures taken.Some? && taken.value.String? ==> t == PlainError(taken.value.s)
    ensures taken.None? ==> t == PlainError(description)
  {
    match taken
    case Some(Error(root)) => Rethrown(root)
    case Some(String(s)) => PlainError(s)
    case None => PlainError(description)
  }

  /**
   * Single use: once something has been taken, a second take finds only the
   * default, an empty string, and never the original object.
   */
  lemma SecondTakeYieldsDefault(kind: IoErrorKind, custom: Option<CustomError>, description: string)
    requires Taken(kind, custom).Some?
    ensures Taken(kind, Remaining(kind, custom)) == Some(Default())
    ensures Rethrow(Taken(kind, Remaining(kind, custom)), description) == PlainError("")
  {
  }

  /**
   * A host value captured, carried in an io error of kind `Other` and thrown
   * again: an Error object comes back as the very same object, anything else
   * as a plain error whose message is the captured text.
   */
  lemma CaptureRoundTrip(v: JsValue, description: string)
    ensures v.ErrorValue? ==>
      Rethrow(Taken(Other, Some(Captured(FromValue(v)))), description) == Rethrown(v.obj)
    ensures v.StringValue? ==>
      Rethrow(Taken(Other, Some(Captured(FromValue(v)))), description) == PlainError(v.s)
    ensures v.OtherValue? ==>
      Rethrow(Taken(Other, Some(Captured(FromValue(v)))), description) == PlainError(v.stringified)
  {
  }

  /**
   * A `std::io::Error` owned by native code. Its kind is fixed; the boxed
   * error is updated in place when the captured exception is moved out.
   */
  class IoError {
    const kind: IoErrorKind
    var custom: Option<CustomError>

    /** An io error of the given kind holding the given boxed error, if any. */
    constructor (kind: IoErrorKind, custom: Option<CustomError>)
      ensures this.kind == kind && this.custom == custom
    {
      this.kind := kind;
      this.custom := custom;
    }

    /**
     * The kind check, `get_mut`, the downcast and `std::mem::take`: moves the
     * captured exception out and leaves the default in its place.
     */
    method Take() returns (taken: Option<ThrownException>)
      modifies this
      ensures taken == Taken(kind, old(custom))
      ensures custom == Remaining(kind, old(custom))
      ensures taken.Some? ==> custom == Some(Captured(Default()))
      ensures taken.None? ==> custom == old(custom)
    {
      taken := None;
      if kind == Other && custom.Some? {
        match custom.value
        case Captured(exception) =>
          taken := Some(exception);
          custom := Some(Captured(Default()));
        case Foreign(_) =>
      }
    }

    /**
     * `std::io::Error::throw`: take the captured exception, then rethrow it,
     * rebuild it from its text, or fall back to the io error's own text
     * `description`. The operation name plays no part.
     */
    method Throw(description: string) returns (t: Thrown)
      modifies this
      ensures t == Rethrow(Taken(kind, old(custom)), description)
      ensures custom == Remaining(kind, old(custom))
    {
      var taken := Take();
      match taken
      case Some(Error(root)) =>
        t := Rethrown(root);
      case Some(String(s)) =>
        t := PlainError(s);
      case None =>
        t := PlainError(description);
    }
  }

  /**
   * Taking twice from one io error: the first take moves the exception out,
   * the second finds only the default, whatever was captured.
   */
  method TakeTwice(io: IoError) returns (first: Option<ThrownException>, second: Option<ThrownException>)
    modifies io
    ensures first == Taken(io.kind, old(io.custom))
    ensures first.Some? ==> second == Some(Default())
    ensures first.None? ==> second.None?
    ensures io.custom == Remaining(io.kind, old(io.custom))
  {
    first := io.Take();
    second := io.Take();
  }
}
