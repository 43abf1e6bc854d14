/** The library's string constants (abort messages, names, lookup paths). */
module Constants {
  import opened Js

  const ABORT_ERROR_MESSAGE := "The user aborted a request."
  const ABORT_ERROR_WITHOUT_REASON_MESSAGE := "signal is aborted without reason"
  const ABORT_ERROR_NAME := "AbortError"
  const ERROR_CAUSE_PATH_NAME := "cause.name"
  const ERROR_CAUSE_PATH_MESSAGE := "cause.message"

  /** The messages that mark an error as an abort, matched whole. */
  const ABORT_ERROR_MESSAGES: seq<string> := [ABORT_ERROR_MESSAGE, ABORT_ERROR_WITHOUT_REASON_MESSAGE]

  /** The coordinator's own messages (`ErrorMessage` of the aborter). */
  const ABORTED_SIGNAL_WITHOUT_MESSAGE := "signal is aborted without message"
  const REQUEST_TIMED_OUT := "the request timed out and an automatic abort occurred"
  const CANCEL_REQUEST := "cancellation of the previous AbortController"

  /** `ABORT_ERROR_MESSAGES.includes(v)`: list membership of the value itself, no substring search. */
  predicate IsListedMessage(v: Value) {
    v.Str? && v.s in ABORT_ERROR_MESSAGES
  }
}
