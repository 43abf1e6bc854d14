/**
 * The first classifier (`isError` next to the first `Aborter`): a listed
 * message, or a cause named "AbortError" or carrying a listed message.
 * Its `get` is the shared path reader, `SharedUtils.Get`.
 */
module LegacyUtils {
  import opened Wrappers
  import opened Js
  import opened Constants
  import opened SharedUtils
  import opened AbortErrors
  import AbortErrorLib

  /** `error?.message ?? ''` matched against the listed messages; the empty string is not listed. */
  predicate HasListedMessage(error: Value) {
    IsListedMessage(OptionalMember(error, "message"))
  }

  /** `isError(error)`: the message test, then the two cause tests. */
  function IsError(error: Value): (r: bool)
    ensures r <==> HasListedMessage(error) || (Truthy(error) && AbortErrorLib.CauseIsAbort(Member(error, "cause")))
  {
    AbortErrorLib.CheckErrorCauseMeaning(error);
    HasListedMessage(error)
    || Get(error, ERROR_CAUSE_PATH_NAME) == Str(ABORT_ERROR_NAME)
    || IsListedMessage(Get(error, ERROR_CAUSE_PATH_MESSAGE))
  }

  /** No primitive is an abort here, and nothing throws: there is no `in` test. */
  lemma PrimitivesAreNotAborts(v: Value)
    requires AbortErrorLib.IsPrimitive(v)
    ensures !IsError(v)
  {
  }

  /** There is no top-level name test: an object named "AbortError" with an unlisted message is not an abort. */
  lemma NameAloneNotSufficient()
    ensures !IsError(Obj([Property("name", Str(ABORT_ERROR_NAME))]))
  {
    var props := [Property("name", Str(ABORT_ERROR_NAME))];
    assert Lookup(props, "message") == None;
    assert Lookup(props, "cause") == None;
  }

  /** The later classifier accepts everything this one accepts on objects; it adds the name test and the instance test. */
  lemma LaterClassifierIsWider(v: Value)
    requires !AbortErrorLib.IsPrimitive(v) && IsError(v)
    ensures AbortErrorLib.IsError(v) == AbortErrorLib.Classified(true)
  {
    AbortErrorLib.CheckErrorCauseMeaning(v);
  }

  /** The signal's default reason is an abort for this classifier too: its message is listed. */
  lemma DefaultReasonIsAbort()
    ensures IsError(DefaultAbortReason)
  {
    ErrorMember(DefaultAbortReason.e, "message");
  }
}
