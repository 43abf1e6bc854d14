/**
 * The helpers for `catch` blocks: `catchAbortError` silences abort errors
 * and rethrows the rest, `rethrowAbortError` does the opposite, and
 * `throwIfAborted` turns an aborted signal into a thrown `AbortError`.
 */
module AbortErrorHandling {
  import opened Wrappers
  import opened Js
  import opened Constants
  import opened AbortErrors
  import opened AbortErrorLib
  import opened Signals

  /**
   * What the classifier throws when `'name' in error` meets a primitive.
   * The exact message is the engine's; this one stands for it.
   */
  const NameProbeError: Value := Err(NewTypeError("Cannot use 'in' operator to search for 'name'"))

  /** `catchAbortError(error, { isStrict })`. */
  function CatchAbortError(error: Value, isStrict: bool): (c: Completion)
    ensures c == Normal || c == Throw(error) || c == Throw(NameProbeError)
    ensures isStrict ==> (c == Normal <==> IsAbortErrorInstance(error))
    ensures !isStrict ==> (c == Normal <==> IsError(error) == Classified(true))
    ensures (isStrict || !IsPrimitive(error)) && c.Throw? ==> c == Throw(error)
    ensures !isStrict && IsPrimitive(error) ==> c == Throw(NameProbeError)
  {
    if isStrict then
      if IsAbortErrorInstance(error) then Normal else Throw(error)
    else
      match IsError(error)
      case Classified(isAbort) => if isAbort then Normal else Throw(error)
      case NameProbeFailed => Throw(NameProbeError)
  }

  /** `rethrowAbortError(error, { isStrict })`. */
  function RethrowAbortError(error: Value, isStrict: bool): (c: Completion)
    ensures c == Normal || c == Throw(error) || c == Throw(NameProbeError)
    ensures isStrict ==> (c == Throw(error) <==> IsAbortErrorInstance(error))
    ensures !isStrict && !IsPrimitive(error) ==> (c == Throw(error) <==> IsError(error) == Classified(true))
    ensures (isStrict || !IsPrimitive(error)) && c.Throw? ==> c == Throw(error)
    ensures !isStrict && IsPrimitive(error) ==> c == Throw(NameProbeError)
  {
    if isStrict then
      if IsAbortErrorInstance(error) then Throw(error) else Normal
    else
      match IsError(error)
      case Classified(isAbort) => if isAbort then Throw(error) else Normal
      case NameProbeFailed => Throw(NameProbeError)
  }

  /**
   * The two helpers split every error between them: whatever one silences
   * the other rethrows, unless the classifier itself throws, in which case
   * both throw its `TypeError`.
   */
  lemma CatchAndRethrowComplementary(error: Value, isStrict: bool)
    ensures !isStrict && IsPrimitive(error) ==>
              CatchAbortError(error, isStrict) == Throw(NameProbeError) == RethrowAbortError(error, isStrict)
    ensures isStrict || !IsPrimitive(error) ==>
              (CatchAbortError(error, isStrict) == Normal <==> RethrowAbortError(error, isStrict) == Throw(error))
              && (CatchAbortError(error, isStrict) == Throw(error) <==> RethrowAbortError(error, isStrict) == Normal)
  {
    if isStrict || !IsPrimitive(error) {
      if error == NameProbeError {
        // the classifier's own TypeError is an object: it is classified, not thrown again
        assert !IsPrimitive(error);
      }
    }
  }

  /** Strict mode silences less: what it lets through the lenient mode lets through too. */
  lemma StrictCatchIsNarrower(error: Value)
    ensures CatchAbortError(error, true) == Normal ==> CatchAbortError(error, false) == Normal
  {
  }

  /** Strict mode never consults the classifier, so no primitive makes it throw. */
  lemma StrictRethrowIgnoresPrimitives(error: Value)
    requires IsPrimitive(error)
    ensures RethrowAbortError(error, true) == Normal
    ensures CatchAbortError(error, true) == Throw(error)
  {
  }

  /** `throwIfAborted(signal)`. */
  function ThrowIfAborted(signal: Signal): (c: Completion)
    ensures c.Normal? <==> !signal.aborted
    ensures c.Throw? ==> IsAbortErrorInstance(c.thrown)
    ensures c.Throw? && IsAbortErrorInstance(signal.reason) ==> c.thrown == signal.reason
    ensures c.Throw? && !IsAbortErrorInstance(signal.reason) ==>
              c.thrown.e.reason == signal.reason && c.thrown.e.initiator == Some("system")
              && c.thrown.e.message == Str(ABORTED_SIGNAL_WITHOUT_MESSAGE)
  {
    if !signal.aborted then Normal
    else if IsAbortErrorInstance(signal.reason) then Throw(signal.reason)
    else Throw(Err(NewAbortError(ABORTED_SIGNAL_WITHOUT_MESSAGE, Aborted, "system", signal.reason, Undefined)))
  }

  /** What `throwIfAborted` throws is silenced by `catchAbortError` in either mode and rethrown by `rethrowAbortError`. */
  lemma ThrownAbortIsCaught(signal: Signal, isStrict: bool)
    requires signal.aborted
    ensures CatchAbortError(ThrowIfAborted(signal).thrown, isStrict) == Normal
    ensures RethrowAbortError(ThrowIfAborted(signal).thrown, isStrict) == Throw(ThrowIfAborted(signal).thrown)
  {
  }

  /** Aborting a live signal with an `AbortError` makes `throwIfAborted` throw that very error. */
  lemma ThrowIfAbortedAfterAbort(s: Signal, reason: Value)
    requires !s.aborted
    ensures IsAbortErrorInstance(reason) ==> ThrowIfAborted(SignalAbort(s, reason)) == Throw(reason)
    ensures reason == Undefined ==>
              ThrowIfAborted(SignalAbort(s, reason)).thrown.e.reason == DefaultAbortReason
  {
  }
}
