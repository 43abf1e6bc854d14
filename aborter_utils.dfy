/** `getAbortErrorByReason`: the `AbortError` an abort is carried out with. */
module AborterUtils {
  import opened Wrappers
  import opened Js
  import opened Constants
  import opened AbortErrors
  import opened AbortErrorLib

  /**
   * An `AbortError` reason is used as it is; any other reason is wrapped in
   * a new user-initiated 'aborted' `AbortError` that keeps it as `reason`.
   */
  function GetAbortErrorByReason(reason: Value): (r: Value)
    ensures IsAbortErrorInstance(r)
    ensures IsAbortErrorInstance(reason) ==> r == reason
    ensures !IsAbortErrorInstance(reason) ==>
              r.e.reason == reason && r.e.abortType == Some(Aborted) && r.e.initiator == Some("user")
              && r.e.message == Str(ABORTED_SIGNAL_WITHOUT_MESSAGE)
  {
    if IsAbortErrorInstance(reason) then reason
    else Err(NewAbortError(ABORTED_SIGNAL_WITHOUT_MESSAGE, Aborted, "user", reason, Undefined))
  }

  /** Wrapping is done at most once: the result of a wrap is kept as it is. */
  lemma GetAbortErrorByReasonIdempotent(reason: Value)
    ensures GetAbortErrorByReason(GetAbortErrorByReason(reason)) == GetAbortErrorByReason(reason)
  {
  }

  /** Every error an abort is carried out with has a type and is recognised by the classifier. */
  lemma AbortErrorByReasonWellFormed(reason: Value)
    requires Typed(reason)
    ensures Typed(GetAbortErrorByReason(reason))
    ensures IsError(GetAbortErrorByReason(reason)) == Classified(true)
  {
  }
}
