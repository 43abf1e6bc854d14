/**
 * The heuristic that decides whether a thrown value is an abort error
 * (`isError`, exported as `isAbortError`), its cause check and
 * `getCauseMessage`.
 */
module AbortErrorLib {
  import opened Wrappers
  import opened Js
  import opened Constants
  import opened SharedUtils
  import opened AbortErrors

  /**
   * The outcome of `isError(v)`.  The test `'name' in v` throws a
   * `TypeError` when `v` is a primitive that is not an `AbortError`
   * instance, so the classifier has a third outcome besides true and false.
   */
  datatype Classification = Classified(isAbort: bool) | NameProbeFailed

  predicate IsPrimitive(v: Value) {
    v.Undefined? || v.Null? || v.Bool? || v.Num? || v.Str?
  }

  /** `checkErrorCause(error)`: the cause's name or message, read by path. */
  predicate CheckErrorCause(error: Value) {
    Get(error, ERROR_CAUSE_PATH_NAME) == Str(ABORT_ERROR_NAME)
    || IsListedMessage(Get(error, ERROR_CAUSE_PATH_MESSAGE))
  }

  /**
   * `isError(error)`, the four tests in their order.  On an object
   * `'name' in error && error.name === 'AbortError'` holds exactly when the
   * name reads "AbortError" (an absent name reads undefined), and
   * `error?.message ?? ''` is only ever compared with the listed messages,
   * so both are read with `Member` directly.
   */
  function IsError(error: Value): (r: Classification)
    ensures r.NameProbeFailed? <==> IsPrimitive(error)
    ensures IsAbortErrorInstance(error) ==> r == Classified(true)
  {
    if IsAbortErrorInstance(error) then Classified(true)
    else if IsPrimitive(error) then NameProbeFailed
    else Classified(Member(error, "name") == Str(ABORT_ERROR_NAME)
                    || IsListedMessage(Member(error, "message"))
                    || CheckErrorCause(error))
  }

  /** `getCauseMessage(error)`. */
  function GetCauseMessage(error: Value): Value {
    Get(error, ERROR_CAUSE_PATH_MESSAGE)
  }

  // ---------------------------------------------------------------------
  // What the path lookups mean

  /** The cause of an abort, read structurally: a truthy cause named "AbortError" or carrying a listed message. */
  predicate CauseIsAbort(cause: Value) {
    Truthy(cause) && (Member(cause, "name") == Str(ABORT_ERROR_NAME) || IsListedMessage(Member(cause, "message")))
  }

  /** `get(v, 'cause.' + key)` is the property `key` of a truthy cause, and falsy otherwise. */
  lemma CausePath(v: Value, key: string)
    requires DotFree(key) && key != ""
    ensures Truthy(v) && Truthy(Member(v, "cause")) ==> Get(v, "cause." + key) == Member(Member(v, "cause"), key)
    ensures !(Truthy(v) && Truthy(Member(v, "cause"))) ==> !Truthy(Get(v, "cause." + key))
  {
    assert "cause." + key == "cause" + "." + key;
    GetPathConcat(v, "cause", key);
    if Truthy(v) {
      GetSingleKey(v, "cause");
      var c := Member(v, "cause");
      if Truthy(c) {
        GetSingleKey(c, key);
      } else {
        GetFalsy(c, key);
      }
    } else {
      GetFalsy(v, "cause");
      GetFalsy(v, key);
    }
  }

  /** The path of the cause's name reads the name of a truthy cause. */
  lemma CauseNamePath(v: Value)
    ensures Truthy(v) && Truthy(Member(v, "cause")) ==> Get(v, ERROR_CAUSE_PATH_NAME) == Member(Member(v, "cause"), "name")
    ensures !(Truthy(v) && Truthy(Member(v, "cause"))) ==> !Truthy(Get(v, ERROR_CAUSE_PATH_NAME))
  {
    assert ERROR_CAUSE_PATH_NAME == "cause." + "name";
    CausePath(v, "name");
  }

  /** The path of the cause's message reads the message of a truthy cause. */
  lemma CauseMessagePath(v: Value)
    ensures Truthy(v) && Truthy(Member(v, "cause")) ==> Get(v, ERROR_CAUSE_PATH_MESSAGE) == Member(Member(v, "cause"), "message")
    ensures !(Truthy(v) && Truthy(Member(v, "cause"))) ==> !Truthy(Get(v, ERROR_CAUSE_PATH_MESSAGE))
  {
    assert ERROR_CAUSE_PATH_MESSAGE == "cause." + "message";
    CausePath(v, "message");
  }

  /** The cause check looks exactly one level down: at the truthy cause of a truthy value. */
  lemma CheckErrorCauseMeaning(v: Value)
    ensures CheckErrorCause(v) <==> Truthy(v) && CauseIsAbort(Member(v, "cause"))
  {
    CauseNamePath(v);
    CauseMessagePath(v);
    var name := Get(v, ERROR_CAUSE_PATH_NAME);
    var message := Get(v, ERROR_CAUSE_PATH_MESSAGE);
    if !(Truthy(v) && Truthy(Member(v, "cause"))) {
      FalsyIsNoAbortMark(name);
      FalsyIsNoAbortMark(message);
    }
  }

  /** A falsy value is neither the abort name nor a listed message. */
  lemma FalsyIsNoAbortMark(x: Value)
    requires !Truthy(x)
    ensures x != Str(ABORT_ERROR_NAME) && !IsListedMessage(x)
  {
  }

  /**
   * On an error object the classifier reads the record: its class, its
   * name, its message, or the name or message of its cause.
   */
  lemma IsErrorOnErrorObject(e: ErrorRecord)
    ensures IsError(Err(e)) == Classified(
              e.errorClass == AbortErrorClass || e.name == Str(ABORT_ERROR_NAME)
              || IsListedMessage(e.message) || CauseIsAbort(e.cause))
  {
    ErrorMember(e, "name");
    ErrorMember(e, "message");
    ErrorMember(e, "cause");
    CheckErrorCauseMeaning(Err(e));
  }

  /** On a plain object the same tests read its own properties. */
  lemma IsErrorOnPlainObject(props: seq<Property>)
    ensures IsError(Obj(props)) == Classified(
              Lookup(props, "name") == Some(Str(ABORT_ERROR_NAME))
              || IsListedMessage(Lookup(props, "message").GetOr(Undefined))
              || CauseIsAbort(Lookup(props, "cause").GetOr(Undefined)))
  {
    CheckErrorCauseMeaning(Obj(props));
  }

  /** The cause's message, one level down, and nothing when there is no truthy cause. */
  lemma GetCauseMessageMeaning(v: Value)
    ensures Truthy(v) && Truthy(Member(v, "cause")) ==> GetCauseMessage(v) == Member(Member(v, "cause"), "message")
    ensures !(Truthy(v) && Truthy(Member(v, "cause"))) ==> !Truthy(GetCauseMessage(v))
  {
    CauseMessagePath(v);
  }

  // ---------------------------------------------------------------------
  // Consequences

  /** Every `AbortError` the library builds is recognised, whatever its message. */
  lemma ConstructedAbortErrorRecognised(message: string, t: AbortType, initiator: string, reason: Value, cause: Value)
    ensures IsError(Err(NewAbortError(message, t, initiator, reason, cause))) == Classified(true)
  {
  }

  /** The platform's default abort reason is recognised by its name. */
  lemma DefaultReasonRecognised()
    ensures IsError(DefaultAbortReason) == Classified(true)
  {
    IsErrorOnErrorObject(DefaultAbortReason.e);
  }

  /** A timeout `AbortError` wrapping a `TimeoutError` is recognised, and so is any error caused by it. */
  lemma ErrorCausedByAbortRecognised(outer: ErrorRecord, message: string, t: AbortType, initiator: string)
    requires outer.cause == Err(NewAbortError(message, t, initiator, Undefined, Undefined))
    ensures IsError(Err(outer)) == Classified(true)
  {
    IsErrorOnErrorObject(outer);
    ErrorMember(outer.cause.e, "name");
  }

  /** Only one level of cause is inspected: an abort two causes down is not seen. */
  lemma NestedCauseNotInspected()
    ensures var inner := Err(NewAbortError(ABORT_ERROR_MESSAGE, Aborted, "user", Undefined, Undefined));
            var middle := ErrorRecord(NativeError, Str("Error"), Str("network"), None, Undefined, inner, None, Undefined, Undefined, Undefined, false);
            var outer := ErrorRecord(NativeError, Str("Error"), Str("request failed"), None, Undefined, Err(middle), None, Undefined, Undefined, Undefined, false);
            IsError(Err(outer)) == Classified(false)
  {
    var inner := Err(NewAbortError(ABORT_ERROR_MESSAGE, Aborted, "user", Undefined, Undefined));
    var middle := ErrorRecord(NativeError, Str("Error"), Str("network"), None, Undefined, inner, None, Undefined, Undefined, Undefined, false);
    var outer := ErrorRecord(NativeError, Str("Error"), Str("request failed"), None, Undefined, Err(middle), None, Undefined, Undefined, Undefined, false);
    IsErrorOnErrorObject(outer);
    ErrorMember(middle, "name");
    ErrorMember(middle, "message");
    assert !IsListedMessage(Str("network"));
    assert !IsListedMessage(Str("request failed"));
  }

  /** Messages are compared whole: a message that merely contains an abort message is not one. */
  lemma MessageMatchedWhole()
    ensures var e := ErrorRecord(NativeError, Str("Error"), Str(ABORT_ERROR_MESSAGE + " Retry."), None,
                                 Undefined, Undefined, None, Undefined, Undefined, Undefined, false);
            IsError(Err(e)) == Classified(false)
  {
    var e := ErrorRecord(NativeError, Str("Error"), Str(ABORT_ERROR_MESSAGE + " Retry."), None,
                         Undefined, Undefined, None, Undefined, Undefined, Undefined, false);
    IsErrorOnErrorObject(e);
    assert |ABORT_ERROR_MESSAGE + " Retry."| != |ABORT_ERROR_MESSAGE|;
    assert !IsListedMessage(e.message);
  }
}
