/**
 * Construction of the error objects the library throws: `AbortError`,
 * `TimeoutError`, `TypeError`, and the platform's default abort reason.
 * The classes themselves are records of `Js.ErrorRecord`; the constructors
 * become functions that fill in the fields.
 */
module AbortErrors {
  import opened Wrappers
  import opened Js
  import opened Constants

  /** The outcome of a call that returns nothing or throws. */
  datatype Completion = Normal | Throw(thrown: Value)

  /**
   * `new AbortError(message, { type, initiator, reason, cause })`.  Every
   * caller in the library passes a type and an initiator or relies on the
   * documented defaults ('aborted', 'user'), so both are explicit here.
   */
  function NewAbortError(message: string, t: AbortType, initiator: string, reason: Value, cause: Value): (r: ErrorRecord)
    ensures r.errorClass == AbortErrorClass && r.abortType == Some(t) && r.initiator == Some(initiator)
    ensures r.name == Str(ABORT_ERROR_NAME) && r.message == Str(message)
    ensures r.reason == reason && r.cause == cause
  {
    ErrorRecord(AbortErrorClass, Str(ABORT_ERROR_NAME), Str(message), Some(t), reason, cause,
                Some(initiator), Undefined, Undefined, Undefined, true)
  }

  /** `v instanceof AbortError` (the library's current class). */
  predicate IsAbortErrorInstance(v: Value) {
    v.Err? && v.e.errorClass == AbortErrorClass
  }

  /** An `AbortError` always has a type: its constructor defaults it to 'aborted'. */
  predicate Typed(v: Value) {
    IsAbortErrorInstance(v) ==> v.e.abortType.Some?
  }

  /** The options a `TimeoutError` is built from: `{ ms, hasThrow? }`. */
  datatype TimeoutErrorOptions = TimeoutErrorOptions(ms: Option<real>, hasThrow: Option<bool>)

  /**
   * `new TimeoutError(message, options)`: `hasThrow` defaults to false and
   * `ms` is copied.  The class does not set a name, so `name` is the
   * inherited "Error".  Its `Date.now()` timestamp is not modelled.
   */
  function NewTimeoutError(message: string, options: Option<TimeoutErrorOptions>): (r: ErrorRecord)
    ensures r.errorClass == TimeoutErrorClass && r.message == Str(message)
    ensures r.hasThrow == Bool(options.Some? && options.value.hasThrow == Some(true))
    ensures r.ms == if options.Some? && options.value.ms.Some? then Num(options.value.ms.value) else Undefined
  {
    var hasThrow := if options.Some? then options.value.hasThrow.GetOr(false) else false;
    var ms := if options.Some? && options.value.ms.Some? then Num(options.value.ms.value) else Undefined;
    ErrorRecord(TimeoutErrorClass, Str("Error"), Str(message), None, Undefined, Undefined, None, Undefined, ms, Bool(hasThrow), false)
  }

  function NewTypeError(message: string): ErrorRecord {
    ErrorRecord(TypeErrorClass, Str("TypeError"), Str(message), None, Undefined, Undefined, None, Undefined, Undefined, Undefined, false)
  }

  /**
   * The reason the platform gives an `AbortController.abort()` called
   * without one: a `DOMException` named "AbortError" (section 3.2 of the
   * WHATWG DOM Standard; the message is the one browsers use).
   */
  const DefaultAbortReason: Value :=
    Err(ErrorRecord(DomAbortException, Str(ABORT_ERROR_NAME), Str(ABORT_ERROR_WITHOUT_REASON_MESSAGE),
                    None, Undefined, Undefined, None, Undefined, Undefined, Undefined, false))
}
