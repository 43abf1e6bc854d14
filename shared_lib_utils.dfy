/**
 * The second classifier (`isError` of the shared library): an instance of
 * the shared library's `AbortError`, a listed message, or the cause tests
 * of `checkErrorCause`.  Its `get` is the shared path reader.
 */
module SharedLibUtils {
  import opened Js
  import opened Constants
  import opened SharedUtils
  import AbortErrorLib
  import LegacyUtils

  /** `error instanceof AbortError` for the shared library's own class. */
  predicate IsSharedAbortError(v: Value) {
    v.Err? && v.e.errorClass == LegacyAbortErrorClass
  }

  /** `checkErrorCause(error)`. */
  predicate CheckErrorCause(error: Value) {
    Get(error, ERROR_CAUSE_PATH_NAME) == Str(ABORT_ERROR_NAME)
    || IsListedMessage(Get(error, ERROR_CAUSE_PATH_MESSAGE))
  }

  /** `isError(error)`: the instance test, the message test, the cause tests. */
  function IsError(error: Value): (r: bool)
    ensures IsSharedAbortError(error) ==> r
    ensures r <==> IsSharedAbortError(error) || LegacyUtils.IsError(error)
  {
    IsSharedAbortError(error)
    || LegacyUtils.HasListedMessage(error)
    || CheckErrorCause(error)
  }

  /** Its cause test is the cause test of the features classifier. */
  lemma CheckErrorCauseMeaning(v: Value)
    ensures CheckErrorCause(v) <==> Truthy(v) && AbortErrorLib.CauseIsAbort(Member(v, "cause"))
  {
    AbortErrorLib.CheckErrorCauseMeaning(v);
  }

  /** A plain object named "AbortError" with no listed message and no abort cause is not an abort here. */
  lemma PlainNameNotSufficient()
    ensures !IsError(Obj([Property("name", Str(ABORT_ERROR_NAME))]))
  {
    LegacyUtils.NameAloneNotSufficient();
  }

  /** An instance is an abort whatever its message and cause. */
  lemma InstanceRecognised(e: ErrorRecord)
    requires e.errorClass == LegacyAbortErrorClass
    ensures IsError(Err(e))
  {
  }
}
