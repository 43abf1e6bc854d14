/**
 * The first `Aborter`: every `try` aborts the current controller (with no
 * reason) and runs the request on a new one; a failed request rejects
 * with a copy of its error whose message is normalised, unless the
 * classifier takes it for an abort, in which case the promise stays
 * pending.  There is no in-progress flag, no timer and no state.
 */
module LegacyAborters {
  import opened Wrappers
  import opened Js
  import opened Constants
  import opened SharedUtils
  import opened AbortErrors
  import opened Signals
  import AbortErrorLib
  import LegacyUtils
  import Aborters

  /** `{ ...props, key: v }`: the key reads the new value and every other key reads as before (keys stay in insertion order). */
  function SetProperty(props: seq<Property>, key: string, v: Value): (r: seq<Property>)
    ensures Lookup(r, key) == Some(v)
    ensures forall k :: k != key ==> Lookup(r, k) == Lookup(props, k)
    ensures forall p :: p in props && p.key != key ==> p in r
  {
    if props == [] then [Property(key, v)]
    else if props[0].key == key then [Property(key, v)] + props[1..]
    else [props[0]] + SetProperty(props[1..], key, v)
  }

  /** `err?.message || get(err, 'cause.message') || ''`: the first truthy of the three. */
  function NormalisedMessage(err: Value): (r: Value)
    ensures Truthy(r) || r == Str("")
    ensures Truthy(OptionalMember(err, "message")) ==> r == OptionalMember(err, "message")
  {
    var own := OptionalMember(err, "message");
    if Truthy(own) then own
    else
      var fromCause := Get(err, ERROR_CAUSE_PATH_MESSAGE);
      if Truthy(fromCause) then fromCause else Str("")
  }

  /** Without an own message, the message is the cause's message when that is truthy, and '' otherwise. */
  lemma NormalisedMessageFromCause(err: Value)
    requires !Truthy(OptionalMember(err, "message"))
    ensures var c := if Truthy(err) then Member(err, "cause") else Undefined;
            var m := if Truthy(c) then Member(c, "message") else Undefined;
            NormalisedMessage(err) == if Truthy(m) then m else Str("")
  {
    AbortErrorLib.CauseMessagePath(err);
  }

  /** The error a failed request rejects with: its own enumerable properties, and the normalised message. */
  function NormalisedError(err: Value): (r: Value)
    ensures r.Obj? && Lookup(r.props, "message") == Some(NormalisedMessage(err))
    ensures forall k :: k != "message" ==> Lookup(r.props, k) == Lookup(OwnEnumerable(err), k)
  {
    Obj(SetProperty(OwnEnumerable(err), "message", NormalisedMessage(err)))
  }

  /** What the `catch` of a request rejects with, if anything: with native behaviour, or for an error that is not an abort, the normalised copy. */
  function Reaction(err: Value, native: bool): (r: Option<Value>)
    ensures r.Some? <==> native || !LegacyUtils.IsError(err)
    ensures r.Some? ==> r.value.Obj? && Lookup(r.value.props, "message") == Some(NormalisedMessage(err))
  {
    if native || !LegacyUtils.IsError(err) then Some(NormalisedError(err)) else None
  }

  /**
   * The reason a signal gets from an abort without reason is silenced in
   * the default mode; with native behaviour it is rejected as a plain
   * object that keeps only its message: the `DOMException`'s name is not
   * an own property, so the copy loses it.
   */
  lemma DefaultReasonReaction()
    ensures Reaction(DefaultAbortReason, false) == None
    ensures Reaction(DefaultAbortReason, true) == Some(Obj([Property("message", Str(ABORT_ERROR_WITHOUT_REASON_MESSAGE))]))
  {
    LegacyUtils.DefaultReasonIsAbort();
    OnlyNameAndMessage(DefaultAbortReason.e);
    OwnMessageKept(DefaultAbortReason.e);
  }

  /** A `DOMException` whose only fields are its (non-own) name and message spreads to nothing. */
  lemma OnlyNameAndMessage(e: ErrorRecord)
    requires e.errorClass == DomAbortException
    requires e.abortType.None? && e.initiator.None?
    requires e.reason == Undefined && e.cause == Undefined && e.metadata == Undefined && e.ms == Undefined && e.hasThrow == Undefined
    ensures OwnEnumerable(Err(e)) == []
  {
    OnlyNameAndMessageProps(e);
    NameAndMessageNotSpread(e);
    assert ErrorOwnEnumerable(e) == Enumerable(ErrorProperties(e), false, e.causeEnumerable);
    assert ErrorOwnEnumerable(e) == Enumerable(PresentFields(e, ["name", "message"]), false, e.causeEnumerable);
  }

  /**
   * The spread copies a `cause` assigned as a field, but not one the
   * `Error` constructor installed.
   */
  lemma ConstructorCauseNotSpread(e: ErrorRecord)
    requires e.errorClass == NativeError && e.abortType.None? && e.initiator.None?
    requires e.reason == Undefined && e.metadata == Undefined && e.ms == Undefined && e.hasThrow == Undefined
    requires e.cause != Undefined
    ensures !e.causeEnumerable ==> Lookup(NormalisedError(Err(e)).props, "cause") == None
    ensures e.causeEnumerable ==> Lookup(NormalisedError(Err(e)).props, "cause") == Some(e.cause)
  {
    OnlyCauseEnumerable(e);
    if !e.causeEnumerable {
      NoMemberMeansEmpty(ErrorOwnEnumerable(e));
    } else {
      assert Property("cause", e.cause) in ErrorOwnEnumerable(e);
    }
  }

  /** With every data field undefined, an error exposes at most its name and message. */
  lemma OnlyNameAndMessageProps(e: ErrorRecord)
    requires e.abortType.None? && e.initiator.None?
    requires e.reason == Undefined && e.cause == Undefined && e.metadata == Undefined && e.ms == Undefined && e.hasThrow == Undefined
    ensures ErrorProperties(e) == PresentFields(e, ["name", "message"])
  {
    var head := ERROR_KEYS[..2];
    assert head == ["name", "message"];
    assert ERROR_KEYS == head + ERROR_KEYS[2..];
    PresentFieldsConcat(e, head, ERROR_KEYS[2..]);
    NoDataFields(e);
    assert ErrorProperties(e) == PresentFields(e, head) + [];
  }

  /** An error's `name` and `message` alone spread to nothing: neither is an own enumerable property. */
  lemma NameAndMessageNotSpread(e: ErrorRecord)
    ensures Enumerable(PresentFields(e, ["name", "message"]), false, e.causeEnumerable) == []
  {
    NoMemberMeansEmpty(Enumerable(PresentFields(e, ["name", "message"]), false, e.causeEnumerable));
  }

  /** Keys whose fields are all undefined contribute no property. */
  lemma NoDataFields(e: ErrorRecord)
    requires e.abortType.None? && e.initiator.None?
    requires e.reason == Undefined && e.cause == Undefined && e.metadata == Undefined && e.ms == Undefined && e.hasThrow == Undefined
    ensures PresentFields(e, ERROR_KEYS[2..]) == []
  {
    assert forall k | k in ERROR_KEYS[2..] :: ErrorField(e, k) == Undefined;
    NoMemberMeansEmpty(PresentFields(e, ERROR_KEYS[2..]));
  }

  /** The properties of two key lists are those of each list, in order. */
  lemma {:induction false} PresentFieldsConcat(e: ErrorRecord, a: seq<string>, b: seq<string>)
    ensures PresentFields(e, a + b) == PresentFields(e, a) + PresentFields(e, b)
  {
    if a == [] {
      assert a + b == b;
    } else {
      assert (a + b)[1..] == a[1..] + b;
      PresentFieldsConcat(e, a[1..], b);
    }
  }

  /** A truthy message of an error is the normalised message. */
  lemma OwnMessageKept(e: ErrorRecord)
    requires Truthy(e.message)
    ensures NormalisedMessage(Err(e)) == e.message
  {
    ErrorMember(e, "message");
  }

  datatype Settlement = Resolve(value: Value) | Fail(error: Value)

  /** One call of `try`: the controller its request got, its option, whether the request settled, and its promise. */
  datatype Attempt = Attempt(signal: nat, native: bool, settled: bool, outcome: Aborters.Outcome)

  class LegacyAborter {
    /** The signal of every controller so far; the last one is `abortController`. */
    var signals: seq<Signal>
    var attempts: seq<Attempt>

    ghost predicate Valid()
      reads this
    {
      |signals| >= 1
      && (forall k :: 0 <= k < |attempts| ==> attempts[k].signal < |signals|)
      && (forall k :: 0 <= k < |attempts| && !attempts[k].settled ==> attempts[k].outcome == Aborters.Unsettled)
    }

    constructor()
      ensures Valid() && signals == [FreshSignal] && attempts == []
    {
      signals := [FreshSignal];
      attempts := [];
    }

    /** The `signal` getter. */
    function Signal(): (r: Signal)
      reads this
      requires |signals| >= 1
      ensures r == signals[|signals| - 1]
    {
      signals[|signals| - 1]
    }

    /** `abort(reason)`: aborts the current controller, then takes a new one. */
    method Abort(reason: Value)
      requires Valid()
      modifies this
      ensures Valid()
      ensures signals == old(signals)[|old(signals)| - 1 := SignalAbort(old(Signal()), reason)] + [FreshSignal]
      ensures attempts == old(attempts)
    {
      signals := signals[|signals| - 1 := SignalAbort(signals[|signals| - 1], reason)];
      signals := signals + [FreshSignal];
    }

    /** `try(request, { isErrorNativeBehavior })`: aborts the current controller, takes a new one and starts the request on it. */
    method Try(native: bool) returns (k: nat)
      requires Valid()
      modifies this
      ensures Valid()
      ensures signals == old(signals)[|old(signals)| - 1 := SignalAbort(old(Signal()), Undefined)] + [FreshSignal, FreshSignal]
      ensures k == |old(attempts)| && attempts == old(attempts) + [Attempt(|signals| - 1, native, false, Aborters.Unsettled)]
    {
      Abort(Undefined);
      signals := signals + [FreshSignal];
      k := |attempts|;
      attempts := attempts + [Attempt(|signals| - 1, native, false, Aborters.Unsettled)];
    }

    /**
     * `try` whose request function throws synchronously inside the promise
     * executor (or returns something without `.then`): the promise rejects
     * with `error` itself, not with the normalised copy, and the catch
     * handler never runs, so no abort is silenced.
     */
    method TryThrowing(native: bool, error: Value) returns (k: nat)
      requires Valid()
      modifies this
      ensures Valid()
      ensures signals == old(signals)[|old(signals)| - 1 := SignalAbort(old(Signal()), Undefined)] + [FreshSignal, FreshSignal]
      ensures k == |old(attempts)| && attempts == old(attempts) + [Attempt(|signals| - 1, native, true, Aborters.RejectedWith(error))]
    {
      k := Try(native);
      attempts := attempts[k := attempts[k].(settled := true, outcome := Aborters.RejectedWith(error))];
    }

    /** Attempt `k`'s request settles: a value resolves the promise; an error is handled by `Reaction`. */
    method Settle(k: nat, s: Settlement)
      requires Valid() && k < |attempts| && !attempts[k].settled
      modifies this
      ensures Valid()
      ensures signals == old(signals) && |attempts| == |old(attempts)|
      ensures forall j :: 0 <= j < |attempts| && j != k ==> attempts[j] == old(attempts)[j]
      ensures attempts[k].settled && attempts[k].signal == old(attempts)[k].signal && attempts[k].native == old(attempts)[k].native
      ensures s.Resolve? ==> attempts[k].outcome == Aborters.Resolved(s.value)
      ensures s.Fail? ==>
                attempts[k].outcome == match Reaction(s.error, old(attempts)[k].native)
                                       case Some(e) => Aborters.RejectedWith(e)
                                       case None => Aborters.Unsettled
    {
      var a := attempts[k];
      var outcome := match s
        case Resolve(v) => Aborters.Resolved(v)
        case Fail(err) =>
          match Reaction(err, a.native)
          case Some(e) => Aborters.RejectedWith(e)
          case None => Aborters.Unsettled;
      attempts := attempts[k := a.(settled := true, outcome := outcome)];
    }
  }

  /**
   * Two requests in a row in the default mode: the second `try` aborts the
   * first request's signal; the first request fails with that signal's
   * reason and its promise stays pending; the second resolves.
   */
  method SupersededRequestSilenced() returns (first: Aborters.Outcome, second: Aborters.Outcome)
    ensures first == Aborters.Unsettled
    ensures second == Aborters.Resolved(Str("b"))
  {
    var a := TwoRequests();
    var reason := a.signals[2].reason;
    DefaultReasonReaction();
    a.Settle(0, Fail(reason));
    a.Settle(1, Resolve(Str("b")));
    first := a.attempts[0].outcome;
    second := a.attempts[1].outcome;
  }

  /**
   * In the default mode a request function that throws the platform's
   * default abort reason synchronously rejects the promise with that very
   * `DOMException`, although the catch handler would have silenced it.
   */
  method SynchronousThrowNotSilenced() returns (outcome: Aborters.Outcome, silenced: bool)
    ensures outcome == Aborters.RejectedWith(DefaultAbortReason)
    ensures silenced
  {
    DefaultReasonReaction();
    silenced := Reaction(DefaultAbortReason, false) == None;
    var a := new LegacyAborter();
    var k := a.TryThrowing(false, DefaultAbortReason);
    outcome := a.attempts[k].outcome;
  }

  /** A new aborter after two calls of `try` in the default mode. */
  method TwoRequests() returns (a: LegacyAborter)
    ensures fresh(a) && a.Valid() && |a.signals| == 5 && |a.attempts| == 2
    ensures a.attempts[0] == Attempt(2, false, false, Aborters.Unsettled) && !a.attempts[1].settled
    ensures a.signals[2].reason == DefaultAbortReason
  {
    a := new LegacyAborter();
    var k0 := a.Try(false);
    assert a.signals[2] == FreshSignal;
    var k1 := a.Try(false);
  }

  /** With native behaviour an aborted request rejects with the normalised copy of the signal's reason. */
  method NativeAbortRejects() returns (outcome: Aborters.Outcome)
    ensures outcome == Aborters.RejectedWith(Obj([Property("message", Str(ABORT_ERROR_WITHOUT_REASON_MESSAGE))]))
  {
    var a, k := AbortedNativeRequest();
    var reason := a.signals[a.attempts[k].signal].reason;
    DefaultReasonReaction();
    a.Settle(k, Fail(reason));
    outcome := a.attempts[k].outcome;
  }

  /** A new aborter whose native-mode request has been aborted without a reason. */
  method AbortedNativeRequest() returns (a: LegacyAborter, k: nat)
    ensures fresh(a) && a.Valid() && k < |a.attempts| && !a.attempts[k].settled && a.attempts[k].native
    ensures a.attempts[k].signal < |a.signals| && a.signals[a.attempts[k].signal].reason == DefaultAbortReason
  {
    a := new LegacyAborter();
    k := a.Try(true);
    a.Abort(Undefined);
  }
}
