/**
 * `Aborter`: runs one request at a time under its own `AbortController`.
 * A new `try` cancels the request still in progress; `abort` aborts it;
 * a timer may abort it after a delay; the request state and abort events
 * are published through the `EventListener` and its `StateObserver`.
 *
 * The asynchronous parts are steps the environment takes: `RunMicrotask`
 * runs the queued 'pending' notification, `Settle` settles a request the
 * caller started, `FireTimer` runs the request timer.  Attempt `k` queues
 * the `k`-th microtask, and a request settles only after its own
 * microtask ran; timers run once the microtask queue is empty.
 */
module Aborters {
  import opened Wrappers
  import opened Js
  import opened Constants
  import opened AbortErrors
  import opened AbortErrorLib
  import opened Signals
  import opened Timers
  import opened StateObservers
  import opened EventListeners
  import opened AborterUtils

  /** The `timeout` option of `try`: a number of milliseconds, or `{ ms, hasThrow }`. */
  datatype TimeoutSetting = NoTimeout | Millis(delay: real) | Settings(ms: Option<real>, hasThrow: Option<bool>)

  /** `typeof timeout === 'number' ? timeout : timeout?.ms`. */
  function TimeoutMs(t: TimeoutSetting): Option<real> {
    match t
    case NoTimeout => None
    case Millis(d) => Some(d)
    case Settings(ms, _) => ms
  }

  /** The options the timeout's `TimeoutError` is built with: `{ ms: timeoutMs, ...timeout }`. */
  function TimeoutOptionsOf(t: TimeoutSetting): (r: Option<TimeoutErrorOptions>)
    ensures r.None? <==> t.NoTimeout?
    ensures r.Some? ==> r.value.ms == TimeoutMs(t)
    ensures r.Some? ==> r.value.hasThrow == if t.Settings? then t.hasThrow else None
  {
    match t
    case NoTimeout => None
    case Millis(d) => Some(TimeoutErrorOptions(Some(d), None))
    case Settings(ms, hasThrow) => Some(TimeoutErrorOptions(ms, hasThrow))
  }

  /** The closure the request timer runs: a timeout abort with these `TimeoutError` options. */
  datatype TimerTask = TimeoutAbort(options: Option<TimeoutErrorOptions>)

  /** The error a timeout aborts with: an 'aborted' `AbortError` from 'timeout' caused by a `TimeoutError`. */
  function TimeoutAbortError(options: Option<TimeoutErrorOptions>): (r: ErrorRecord)
    ensures r.errorClass == AbortErrorClass && r.abortType == Some(Aborted) && r.initiator == Some("timeout")
    ensures r.message == Str(REQUEST_TIMED_OUT) && r.reason == Undefined
    ensures r.cause == Err(NewTimeoutError(REQUEST_TIMED_OUT, options))
  {
    NewAbortError(REQUEST_TIMED_OUT, Aborted, "timeout", Undefined, Err(NewTimeoutError(REQUEST_TIMED_OUT, options)))
  }

  /** A timeout abort records the delay and the `hasThrow` flag of the setting in its cause, and is recognised as an abort. */
  lemma TimeoutAbortCarriesSetting(t: TimeoutSetting)
    requires Arms(TimeoutMs(t))
    ensures var cause := TimeoutAbortError(TimeoutOptionsOf(t)).cause.e;
            cause.ms == Num(TimeoutMs(t).value)
            && cause.hasThrow == Bool(t.Settings? && t.hasThrow == Some(true))
            && cause.errorClass == TimeoutErrorClass
    ensures IsError(Err(TimeoutAbortError(TimeoutOptionsOf(t)))) == Classified(true)
  {
  }

  function EventTypeOf(t: AbortType): EventType {
    match t
    case Cancelled => CancelledEvent
    case Aborted => AbortedEvent
  }

  function StateOf(t: AbortType): RequestState {
    match t
    case Cancelled => CancelledState
    case Aborted => AbortedState
  }

  /** The states after which no request is in progress: 'fulfilled', 'rejected', 'aborted'. */
  predicate Terminal(s: RequestState) {
    s == Fulfilled || s == Rejected || s == AbortedState
  }

  /** What a request's promise fulfils with: any value, or a fetch `Response` whose body parses (or fails to) as JSON. */
  datatype Response = Plain(value: Value) | FetchResponse(raw: Value, json: Result<Value, Value>)

  datatype Settlement = Fulfil(response: Response) | Reject(error: Value)

  /** The state of the promise `try` returned. */
  datatype Outcome = Unsettled | Resolved(value: Value) | RejectedWith(error: Value)

  /** One call of `try`: the controller its request got, its options, whether the request settled, and its promise. */
  datatype Attempt = Attempt(signal: nat, unpackData: bool, native: bool, settled: bool, outcome: Outcome)

  /** What the aborter published, in order. */
  datatype Notice = StateEmitted(state: RequestState) | EventDispatched(eventType: EventType, error: Value)

  /** The callbacks registered with an aborter's listeners, per event type and for state changes. */
  datatype Registrations = Registrations(
    aborted: seq<CallbackId>, cancelled: seq<CallbackId>, timedOut: seq<CallbackId>,
    onabort: Option<CallbackId>, subscribers: seq<CallbackId>, onstatechange: Option<CallbackId>)

  /** The promise of a fulfilled request: the parsed body of a `Response` when unpacking, the value itself otherwise. */
  function FulfilmentOutcome(response: Response, unpackData: bool): (r: Outcome)
    ensures r != Unsettled
    ensures !unpackData ==> r == Resolved(if response.Plain? then response.value else response.raw)
    ensures response.Plain? ==> r == Resolved(response.value)
  {
    match response
    case Plain(v) => Resolved(v)
    case FetchResponse(raw, json) =>
      if !unpackData then Resolved(raw)
      else match json
        case Success(body) => Resolved(body)
        case Failure(e) => RejectedWith(e)
  }

  /** What the `catch` of a request does: whether it rejects the promise, and whether it publishes 'rejected'. */
  datatype ErrorEffect = ErrorEffect(rejects: bool, marksRejected: bool)

  /**
   * An 'aborted' `AbortError` rejects the promise; with native behaviour,
   * or for an error the classifier does not take for an abort, the state
   * becomes 'rejected' and the promise is rejected.  A primitive makes the
   * classifier throw inside the handler, which then does nothing more.
   */
  function OnRequestError(error: Value, native: bool): (r: ErrorEffect)
    ensures r.marksRejected ==> r.rejects
    ensures native ==> r == ErrorEffect(true, true)
    ensures IsError(error) == Classified(false) ==> r == ErrorEffect(true, true)
    ensures !native && error.Err? && error.e.abortType == Some(Cancelled) && IsAbortErrorInstance(error) ==> r == ErrorEffect(false, false)
    ensures IsAbortErrorInstance(error) && error.e.abortType == Some(Aborted) ==> r.rejects && r.marksRejected == native
  {
    var early := IsAbortErrorInstance(error) && error.e.abortType == Some(Aborted);
    var marks := native || IsError(error) == Classified(false);
    ErrorEffect(early || marks, marks)
  }

  /** In the default mode a request that fails with a recognised abort other than an 'aborted' `AbortError` leaves its promise pending, silently. */
  lemma SilencedAborts(error: Value)
    requires IsError(error) == Classified(true)
    requires !(IsAbortErrorInstance(error) && error.e.abortType == Some(Aborted))
    ensures OnRequestError(error, false) == ErrorEffect(false, false)
  {
  }

  class Aborter {
    /** The signal of every controller created so far; `current` is `abortController`. */
    var signals: seq<Signal>
    var current: nat
    var isRequestInProgress: bool
    const timeout: Timeout<TimerTask>
    const listeners: EventListener
    var attempts: seq<Attempt>
    /** How many of the queued 'pending' microtasks (one per attempt) have run. */
    var microtasksRun: nat
    ghost var notices: seq<Notice>

    ghost predicate Valid()
      reads this, timeout, listeners, listeners.state
    {
      current < |signals|
      && (forall k :: 0 <= k < |attempts| ==> attempts[k].signal < |signals|)
      && (forall k :: 0 <= k < |attempts| && !attempts[k].settled ==> attempts[k].outcome == Unsettled)
      && microtasksRun <= |attempts|
      && timeout.Valid() && listeners.Valid()
      && (timeout.pending.Some? ==> isRequestInProgress)
    }

    /** `new Aborter({ onAbort, onStateChange })`. */
    constructor(onAbort: Option<CallbackId>, onStateChange: Option<CallbackId>)
      ensures Valid() && fresh(timeout) && fresh(listeners) && fresh(listeners.state)
      ensures signals == [FreshSignal] && current == 0 && !isRequestInProgress
      ensures attempts == [] && microtasksRun == 0 && notices == []
      ensures timeout.pending == None && listeners.onabort == onAbort && listeners.state.onstatechange == onStateChange
      ensures listeners.state.value == None && listeners.state.subscribers == [] && listeners.listeners == map[]
    {
      signals := [FreshSignal];
      current := 0;
      isRequestInProgress := false;
      timeout := new Timeout();
      listeners := new EventListener(onAbort, onStateChange);
      attempts := [];
      microtasksRun := 0;
      notices := [];
    }

    /** The `signal` getter. */
    function Signal(): Signal
      reads this
      requires current < |signals|
    {
      signals[current]
    }

    /** The `aborted` getter: the signal is aborted and the last published state is 'aborted'. */
    function Aborted(): (r: bool)
      reads this, listeners, listeners.state
      requires current < |signals|
      ensures r <==> signals[current].aborted && listeners.state.value == Some(AbortedState)
    {
      Signal().aborted && listeners.state.value == Some(AbortedState)
    }

    /**
     * What callers have registered: the listener set of each event type,
     * `onabort`, the state subscribers and `onstatechange`.
     */
    ghost function Registered(): Registrations
      reads this, listeners, listeners.state
    {
      Registrations(listeners.ListenersOf(AbortedEvent), listeners.ListenersOf(CancelledEvent),
                    listeners.ListenersOf(TimeoutEvent), listeners.onabort,
                    listeners.state.subscribers, listeners.state.onstatechange)
    }

    /** `setRequestState(state)`: publishes the state; a terminal state also clears the timer and the in-progress flag. */
    method SetRequestState(state: RequestState)
      requires Valid()
      modifies this, timeout, listeners.state
      ensures Valid()
      ensures listeners.state.value == Some(state)
      ensures listeners.state.calls
              == old(listeners.state.calls) + Deliveries(old(listeners.state.subscribers), old(listeners.state.onstatechange), state)
      ensures listeners.state.subscribers == old(listeners.state.subscribers)
      ensures listeners.state.onstatechange == old(listeners.state.onstatechange)
      ensures notices == old(notices) + [StateEmitted(state)]
      ensures Terminal(state) ==> !isRequestInProgress && timeout.pending == None && timeout.timeoutId == None
      ensures !Terminal(state) ==> isRequestInProgress == old(isRequestInProgress) && unchanged(timeout)
      ensures signals == old(signals) && current == old(current)
      ensures attempts == old(attempts) && microtasksRun == old(microtasksRun)
    {
      listeners.state.Emit(state);
      notices := notices + [StateEmitted(state)];
      if Terminal(state) {
        timeout.ClearTimeout();
        isRequestInProgress := false;
      }
    }

    /**
     * `abort(reason)`: outside a request nothing happens.  Otherwise the
     * reason's `AbortError` is dispatched as an event of its type, the
     * controller is aborted with it, and the state of its type is published.
     * Every `AbortError` has a type (its constructor defaults it), hence
     * `Typed(reason)`.
     */
    method Abort(reason: Value)
      requires Valid() && Typed(reason)
      modifies this, timeout, listeners, listeners.state
      ensures Valid()
      ensures !old(isRequestInProgress) ==>
                unchanged(this) && unchanged(timeout) && unchanged(listeners) && unchanged(listeners.state)
      ensures old(isRequestInProgress) ==>
                var error := GetAbortErrorByReason(reason);
                var t := error.e.abortType.value;
                notices == old(notices) + [EventDispatched(EventTypeOf(t), error), StateEmitted(StateOf(t))]
                && signals == old(signals)[old(current) := SignalAbort(old(signals)[old(current)], error)]
                && listeners.calls == old(listeners.calls)
                   + DispatchCalls(EventTypeOf(t), old(listeners.onabort), old(listeners.ListenersOf(EventTypeOf(t))), error)
                && listeners.state.value == Some(StateOf(t))
                && listeners.state.calls == old(listeners.state.calls) + Deliveries(old(listeners.state.subscribers), old(listeners.state.onstatechange), StateOf(t))
                && (t == AbortType.Aborted ==> !isRequestInProgress && timeout.pending == None)
                && (t == AbortType.Cancelled ==> isRequestInProgress && timeout.pending == old(timeout.pending))
      ensures Registered() == old(Registered())
      ensures current == old(current) && attempts == old(attempts) && microtasksRun == old(microtasksRun)
    {
      if isRequestInProgress {
        AbortRequest(reason);
      }
    }

    /** The part of `abort(reason)` that runs while a request is in progress. */
    method AbortRequest(reason: Value)
      requires Valid() && Typed(reason) && isRequestInProgress
      modifies this, timeout, listeners, listeners.state
      ensures Valid()
      ensures var error := GetAbortErrorByReason(reason);
              var t := error.e.abortType.value;
              notices == old(notices) + [EventDispatched(EventTypeOf(t), error), StateEmitted(StateOf(t))]
              && signals == old(signals)[old(current) := SignalAbort(old(signals)[old(current)], error)]
              && listeners.calls == old(listeners.calls)
                 + DispatchCalls(EventTypeOf(t), old(listeners.onabort), old(listeners.ListenersOf(EventTypeOf(t))), error)
              && listeners.state.value == Some(StateOf(t))
              && listeners.state.calls == old(listeners.state.calls) + Deliveries(old(listeners.state.subscribers), old(listeners.state.onstatechange), StateOf(t))
              && (t == AbortType.Aborted ==> !isRequestInProgress && timeout.pending == None)
              && (t == AbortType.Cancelled ==> isRequestInProgress && timeout.pending == old(timeout.pending))
      ensures Registered() == old(Registered())
      ensures current == old(current) && attempts == old(attempts) && microtasksRun == old(microtasksRun)
    {
      var error := GetAbortErrorByReason(reason);
      var t := error.e.abortType.value;
      DispatchAbort(EventTypeOf(t), error);
      SetRequestState(StateOf(t));
    }

    /** `dispatchEvent(type, error)` followed by `abortController.abort(error)`. */
    method DispatchAbort(t: EventType, error: Value)
      requires Valid()
      modifies this, listeners
      ensures Valid() && current == old(current)
      ensures notices == old(notices) + [EventDispatched(t, error)]
      ensures signals == old(signals)[current := SignalAbort(old(signals)[current], error)]
      ensures listeners.calls == old(listeners.calls) + DispatchCalls(t, old(listeners.onabort), old(listeners.ListenersOf(t)), error)
      ensures listeners.state.calls == old(listeners.state.calls) && listeners.state.value == old(listeners.state.value)
      ensures Registered() == old(Registered())
      ensures isRequestInProgress == old(isRequestInProgress)
      ensures attempts == old(attempts) && microtasksRun == old(microtasksRun)
    {
      listeners.DispatchEvent(t, error);
      notices := notices + [EventDispatched(t, error)];
      signals := signals[current := SignalAbort(signals[current], error)];
    }

    /**
     * `try(request, { isErrorNativeBehavior, timeout, unpackData })`: cancels
     * the request in progress, if any, takes a new controller, arms the
     * timer, queues the 'pending' notification and starts the request on the
     * new signal.  The returned index names the attempt.
     */
    method Try(unpackData: bool, native: bool, setting: TimeoutSetting) returns (k: nat)
      requires Valid()
      modifies this, timeout, listeners, listeners.state
      ensures Valid()
      ensures k == |old(attempts)| && attempts == old(attempts) + [Attempt(current, unpackData, native, false, Unsettled)]
      ensures current == |signals| - 1 && signals[current] == FreshSignal && isRequestInProgress
      ensures old(isRequestInProgress) ==>
                var cancel := Err(NewAbortError(CANCEL_REQUEST, Cancelled, "system", Undefined, Undefined));
                signals == old(signals)[old(current) := SignalAbort(old(signals)[old(current)], cancel)] + [FreshSignal]
                && notices == old(notices) + [EventDispatched(CancelledEvent, cancel), StateEmitted(CancelledState)]
                && listeners.calls == old(listeners.calls)
                   + DispatchCalls(CancelledEvent, old(listeners.onabort), old(listeners.ListenersOf(CancelledEvent)), cancel)
                && listeners.state.value == Some(CancelledState)
                && listeners.state.calls == old(listeners.state.calls) + Deliveries(old(listeners.state.subscribers), old(listeners.state.onstatechange), CancelledState)
      ensures !old(isRequestInProgress) ==> signals == old(signals) + [FreshSignal] && notices == old(notices)
      ensures !old(isRequestInProgress) ==>
                listeners.calls == old(listeners.calls) && listeners.state.calls == old(listeners.state.calls)
                && listeners.state.value == old(listeners.state.value)
      ensures Arms(TimeoutMs(setting)) ==>
                timeout.pending.Some? && timeout.pending.value.callback == TimeoutAbort(TimeoutOptionsOf(setting))
                && timeout.pending.value.delay == TimeoutMs(setting).value
      ensures !Arms(TimeoutMs(setting)) ==> timeout.pending == None
      ensures Registered() == old(Registered())
      ensures microtasksRun == old(microtasksRun)
    {
      if isRequestInProgress {
        var cancel := Err(NewAbortError(CANCEL_REQUEST, Cancelled, "system", Undefined, Undefined));
        AbortRequest(cancel);
      }
      k := StartRequest(unpackData, native, setting);
    }

    /**
     * `try` whose request function throws synchronously inside the promise
     * executor (or returns something without `.then`, whose call throws a
     * `TypeError` there): the promise rejects with `error` as it is, and
     * neither handler runs.  Everything `try` did before the call stays:
     * the flag, the armed timer and the queued 'pending' microtask.
     */
    method TryThrowing(unpackData: bool, native: bool, setting: TimeoutSetting, error: Value) returns (k: nat)
      requires Valid()
      modifies this, timeout, listeners, listeners.state
      ensures Valid()
      ensures k == |old(attempts)| && attempts == old(attempts) + [Attempt(current, unpackData, native, true, RejectedWith(error))]
      ensures current == |signals| - 1 && signals[current] == FreshSignal && isRequestInProgress
      ensures old(isRequestInProgress) ==>
                var cancel := Err(NewAbortError(CANCEL_REQUEST, Cancelled, "system", Undefined, Undefined));
                signals == old(signals)[old(current) := SignalAbort(old(signals)[old(current)], cancel)] + [FreshSignal]
                && notices == old(notices) + [EventDispatched(CancelledEvent, cancel), StateEmitted(CancelledState)]
                && listeners.calls == old(listeners.calls)
                   + DispatchCalls(CancelledEvent, old(listeners.onabort), old(listeners.ListenersOf(CancelledEvent)), cancel)
                && listeners.state.value == Some(CancelledState)
                && listeners.state.calls == old(listeners.state.calls) + Deliveries(old(listeners.state.subscribers), old(listeners.state.onstatechange), CancelledState)
      ensures !old(isRequestInProgress) ==> signals == old(signals) + [FreshSignal] && notices == old(notices)
      ensures !old(isRequestInProgress) ==>
                listeners.calls == old(listeners.calls) && listeners.state.calls == old(listeners.state.calls)
                && listeners.state.value == old(listeners.state.value)
      ensures Arms(TimeoutMs(setting)) ==>
                timeout.pending.Some? && timeout.pending.value.callback == TimeoutAbort(TimeoutOptionsOf(setting))
                && timeout.pending.value.delay == TimeoutMs(setting).value
      ensures !Arms(TimeoutMs(setting)) ==> timeout.pending == None
      ensures Registered() == old(Registered())
      ensures microtasksRun == old(microtasksRun)
    {
      k := Try(unpackData, native, setting);
      attempts := attempts[k := attempts[k].(settled := true, outcome := RejectedWith(error))];
    }

    /** The part of `try` after the cancellation: a new controller, the timer and the attempt. */
    method StartRequest(unpackData: bool, native: bool, setting: TimeoutSetting) returns (k: nat)
      requires Valid()
      modifies this, timeout
      ensures Valid()
      ensures k == |old(attempts)| && attempts == old(attempts) + [Attempt(current, unpackData, native, false, Unsettled)]
      ensures signals == old(signals) + [FreshSignal] && current == |signals| - 1 && isRequestInProgress
      ensures Arms(TimeoutMs(setting)) ==>
                timeout.pending.Some? && timeout.pending.value.callback == TimeoutAbort(TimeoutOptionsOf(setting))
                && timeout.pending.value.delay == TimeoutMs(setting).value
      ensures !Arms(TimeoutMs(setting)) ==> timeout.pending == None
      ensures notices == old(notices) && microtasksRun == old(microtasksRun)
    {
      signals := signals + [FreshSignal];
      current := |signals| - 1;
      isRequestInProgress := true;
      timeout.SetTimeout(TimeoutMs(setting), TimeoutAbort(TimeoutOptionsOf(setting)));
      k := |attempts|;
      attempts := attempts + [Attempt(current, unpackData, native, false, Unsettled)];
    }

    /** The queued microtask runs: `setRequestState('pending')`. */
    method RunMicrotask()
      requires Valid() && microtasksRun < |attempts|
      modifies this, timeout, listeners.state
      ensures Valid()
      ensures microtasksRun == old(microtasksRun) + 1
      ensures notices == old(notices) + [StateEmitted(Pending)] && listeners.state.value == Some(Pending)
      ensures listeners.state.calls == old(listeners.state.calls) + Deliveries(old(listeners.state.subscribers), old(listeners.state.onstatechange), Pending)
      ensures listeners.calls == old(listeners.calls)
      ensures isRequestInProgress == old(isRequestInProgress) && unchanged(timeout)
      ensures Registered() == old(Registered())
      ensures signals == old(signals) && current == old(current) && attempts == old(attempts)
    {
      SetRequestState(Pending);
      microtasksRun := microtasksRun + 1;
    }

    /**
     * Attempt `k`'s request settles.  A fulfilment counts only while a
     * request is in progress; the flag is the aborter's, not the attempt's,
     * so a superseded request that fulfils while its successor runs still
     * resolves.  A failure is handled by `OnRequestError`.
     */
    method Settle(k: nat, s: Settlement)
      requires Valid() && k < |attempts| && !attempts[k].settled && k < microtasksRun
      modifies this, timeout, listeners.state
      ensures Valid()
      ensures |attempts| == |old(attempts)| && attempts[k].settled
      ensures forall j :: 0 <= j < |attempts| && j != k ==> attempts[j] == old(attempts)[j]
      ensures s.Fulfil? && !old(isRequestInProgress) ==>
                attempts[k].outcome == Unsettled && notices == old(notices) && isRequestInProgress == old(isRequestInProgress)
                && unchanged(timeout) && unchanged(listeners.state)
      ensures s.Fulfil? && old(isRequestInProgress) ==>
                attempts[k].outcome == FulfilmentOutcome(s.response, old(attempts)[k].unpackData)
                && notices == old(notices) + [StateEmitted(Fulfilled)] && !isRequestInProgress && timeout.pending == None
                && listeners.state.value == Some(Fulfilled)
                && listeners.state.calls == old(listeners.state.calls) + Deliveries(old(listeners.state.subscribers), old(listeners.state.onstatechange), Fulfilled)
      ensures s.Reject? ==>
                var effect := OnRequestError(s.error, old(attempts)[k].native);
                attempts[k].outcome == (if effect.rejects then RejectedWith(s.error) else Unsettled)
                && (effect.marksRejected ==>
                      notices == old(notices) + [StateEmitted(Rejected)] && !isRequestInProgress && timeout.pending == None
                      && listeners.state.value == Some(Rejected)
                      && listeners.state.calls == old(listeners.state.calls) + Deliveries(old(listeners.state.subscribers), old(listeners.state.onstatechange), Rejected))
                && (!effect.marksRejected ==>
                      notices == old(notices) && isRequestInProgress == old(isRequestInProgress)
                      && unchanged(timeout) && unchanged(listeners.state))
      ensures listeners.calls == old(listeners.calls)
      ensures Registered() == old(Registered())
      ensures signals == old(signals) && current == old(current) && microtasksRun == old(microtasksRun)
    {
      match s
      case Fulfil(response) => Fulfil(k, response);
      case Reject(error) => Reject(k, error);
    }

    /** The fulfilment handler of attempt `k`'s request. */
    method Fulfil(k: nat, response: Response)
      requires Valid() && k < |attempts| && !attempts[k].settled
      modifies this, timeout, listeners.state
      ensures Valid()
      ensures |attempts| == |old(attempts)| && attempts == old(attempts)[k := attempts[k]] && attempts[k].settled
      ensures !old(isRequestInProgress) ==>
                attempts[k].outcome == Unsettled && notices == old(notices) && isRequestInProgress == old(isRequestInProgress)
                && unchanged(timeout) && unchanged(listeners.state)
      ensures old(isRequestInProgress) ==>
                attempts[k].outcome == FulfilmentOutcome(response, old(attempts)[k].unpackData)
                && notices == old(notices) + [StateEmitted(Fulfilled)] && !isRequestInProgress && timeout.pending == None
                && listeners.state.value == Some(Fulfilled)
                && listeners.state.calls == old(listeners.state.calls) + Deliveries(old(listeners.state.subscribers), old(listeners.state.onstatechange), Fulfilled)
      ensures Registered() == old(Registered())
      ensures signals == old(signals) && current == old(current) && microtasksRun == old(microtasksRun)
    {
      var a := attempts[k];
      if !isRequestInProgress {
        attempts := attempts[k := a.(settled := true)];
      } else {
        SetRequestState(Fulfilled);
        attempts := attempts[k := a.(settled := true, outcome := FulfilmentOutcome(response, a.unpackData))];
      }
    }

    /** The rejection handler of attempt `k`'s request: `OnRequestError` decides. */
    method Reject(k: nat, error: Value)
      requires Valid() && k < |attempts| && !attempts[k].settled
      modifies this, timeout, listeners.state
      ensures Valid()
      ensures |attempts| == |old(attempts)| && attempts == old(attempts)[k := attempts[k]] && attempts[k].settled
      ensures var effect := OnRequestError(error, old(attempts)[k].native);
              attempts[k].outcome == (if effect.rejects then RejectedWith(error) else Unsettled)
              && (effect.marksRejected ==>
                    notices == old(notices) + [StateEmitted(Rejected)] && !isRequestInProgress && timeout.pending == None
                    && listeners.state.value == Some(Rejected)
                    && listeners.state.calls == old(listeners.state.calls) + Deliveries(old(listeners.state.subscribers), old(listeners.state.onstatechange), Rejected))
              && (!effect.marksRejected ==>
                    notices == old(notices) && isRequestInProgress == old(isRequestInProgress)
                    && unchanged(timeout) && unchanged(listeners.state))
      ensures Registered() == old(Registered())
      ensures signals == old(signals) && current == old(current) && microtasksRun == old(microtasksRun)
    {
      var a := attempts[k];
      var effect := OnRequestError(error, a.native);
      if effect.marksRejected {
        SetRequestState(Rejected);
      }
      attempts := attempts[k := a.(settled := true, outcome := if effect.rejects then RejectedWith(error) else Unsettled)];
    }

    /** The request timer runs (once no microtask is queued): a timeout abort of the request in progress. */
    method FireTimer()
      requires Valid() && microtasksRun == |attempts|
      modifies this, timeout, listeners, listeners.state
      ensures Valid()
      ensures timeout.pending == None
      ensures old(timeout.pending).None? ==>
                notices == old(notices) && signals == old(signals)
                && listeners.calls == old(listeners.calls) && unchanged(listeners.state)
      ensures old(timeout.pending).Some? ==>
                var error := Err(TimeoutAbortError(old(timeout.pending).value.callback.options));
                notices == old(notices) + [EventDispatched(AbortedEvent, error), StateEmitted(AbortedState)]
                && signals == old(signals)[old(current) := SignalAbort(old(signals)[old(current)], error)]
                && listeners.calls == old(listeners.calls)
                   + DispatchCalls(AbortedEvent, old(listeners.onabort), old(listeners.ListenersOf(AbortedEvent)), error)
                && listeners.state.calls == old(listeners.state.calls) + Deliveries(old(listeners.state.subscribers), old(listeners.state.onstatechange), AbortedState)
                && !isRequestInProgress && Aborted()
      ensures Registered() == old(Registered())
      ensures current == old(current) && attempts == old(attempts) && microtasksRun == old(microtasksRun)
    {
      var fired := timeout.Elapse();
      if fired.Some? {
        Abort(Err(TimeoutAbortError(fired.value.options)));
      }
    }

    /** `abortWithRecovery(reason)`: aborts, then takes a new controller and returns it. */
    method AbortWithRecovery(reason: Value) returns (controller: nat)
      requires Valid() && Typed(reason)
      modifies this, timeout, listeners, listeners.state
      ensures Valid()
      ensures controller == current && current == |signals| - 1 && signals[current] == FreshSignal
      ensures old(isRequestInProgress) ==>
                var error := GetAbortErrorByReason(reason);
                var t := error.e.abortType.value;
                notices == old(notices) + [EventDispatched(EventTypeOf(t), error), StateEmitted(StateOf(t))]
                && signals == old(signals)[old(current) := SignalAbort(old(signals)[old(current)], error)] + [FreshSignal]
                && listeners.calls == old(listeners.calls)
                   + DispatchCalls(EventTypeOf(t), old(listeners.onabort), old(listeners.ListenersOf(EventTypeOf(t))), error)
                && listeners.state.value == Some(StateOf(t))
                && listeners.state.calls == old(listeners.state.calls) + Deliveries(old(listeners.state.subscribers), old(listeners.state.onstatechange), StateOf(t))
                && (t == AbortType.Aborted ==> !isRequestInProgress && timeout.pending == None)
                && (t == AbortType.Cancelled ==> isRequestInProgress && timeout.pending == old(timeout.pending))
      ensures !old(isRequestInProgress) ==>
                signals == old(signals) + [FreshSignal] && notices == old(notices)
                && isRequestInProgress == old(isRequestInProgress) && unchanged(timeout) && unchanged(listeners) && unchanged(listeners.state)
      ensures Registered() == old(Registered())
      ensures attempts == old(attempts) && microtasksRun == old(microtasksRun)
    {
      ghost var aborted := if isRequestInProgress
        then signals[current := SignalAbort(signals[current], GetAbortErrorByReason(reason))]
        else signals;
      Abort(reason);
      assert signals == aborted;
      signals := signals + [FreshSignal];
      current := |signals| - 1;
      controller := current;
    }

    /** The dispose method: clears the timer and every listener; the controller and the in-progress flag stay. */
    method Dispose()
      requires Valid()
      modifies this, timeout, listeners, listeners.state
      ensures Valid()
      ensures timeout.pending == None && timeout.timeoutId == None
      ensures listeners.listeners == map[] && listeners.onabort == None
      ensures listeners.state.subscribers == [] && listeners.state.onstatechange == None && listeners.state.value == None
      ensures signals == old(signals) && current == old(current) && isRequestInProgress == old(isRequestInProgress)
      ensures attempts == old(attempts) && notices == old(notices)
      ensures listeners.calls == old(listeners.calls) && listeners.state.calls == old(listeners.state.calls)
    {
      timeout.ClearTimeout();
      listeners.Clear();
    }
  }
  /**
   * Two requests in a row: the second `try` cancels the first, whose request
   * then fails with its signal's reason.  That rejection is silenced, so the
   * first promise stays pending while the second resolves.
   */
  method CancelledRequestStaysPending() returns (first: Outcome, second: Outcome)
    ensures first == Unsettled
    ensures second == Resolved(Str("b"))
  {
    var a := new Aborter(None, None);
    var k0 := a.Try(true, false, NoTimeout);
    a.RunMicrotask();
    var k1 := a.Try(true, false, NoTimeout);
    a.RunMicrotask();
    var reason := a.signals[a.attempts[k0].signal].reason;
    assert reason == Err(NewAbortError(CANCEL_REQUEST, Cancelled, "system", Undefined, Undefined));
    a.Settle(k0, Reject(reason));
    first := a.attempts[k0].outcome;
    assert first == Unsettled && a.isRequestInProgress;
    a.Settle(k1, Fulfil(Plain(Str("b"))));
    second := a.attempts[k1].outcome;
  }

  /**
   * A superseded request that ignores its signal and fulfils first still
   * resolves, because the in-progress flag belongs to the aborter; it ends
   * the flag, so the current request's later fulfilment is dropped.
   */
  method StaleFulfilmentWins() returns (first: Outcome, second: Outcome, inProgress: bool)
    ensures first == Resolved(Str("a"))
    ensures second == Unsettled
    ensures !inProgress
  {
    var a := new Aborter(None, None);
    var k0 := a.Try(true, false, NoTimeout);
    a.RunMicrotask();
    var k1 := a.Try(true, false, NoTimeout);
    a.RunMicrotask();
    a.Settle(k0, Fulfil(Plain(Str("a"))));
    a.Settle(k1, Fulfil(Plain(Str("b"))));
    first := a.attempts[k0].outcome;
    second := a.attempts[k1].outcome;
    inProgress := a.isRequestInProgress;
  }

  /**
   * A request function that throws a 'cancelled' `AbortError` synchronously,
   * in the default mode: the catch handler would have silenced that error,
   * but the promise rejects with it as it is, and the request stays in
   * progress with its timer armed.
   */
  method SynchronousThrowRejectsRaw() returns (outcome: Outcome, silenced: bool, inProgress: bool, armed: bool)
    ensures outcome == RejectedWith(Err(NewAbortError(CANCEL_REQUEST, Cancelled, "user", Undefined, Undefined)))
    ensures silenced && inProgress && armed
  {
    var error := Err(NewAbortError(CANCEL_REQUEST, Cancelled, "user", Undefined, Undefined));
    ConstructedAbortErrorRecognised(CANCEL_REQUEST, Cancelled, "user", Undefined, Undefined);
    SilencedAborts(error);
    silenced := OnRequestError(error, false) == ErrorEffect(false, false);
    var a := new Aborter(None, None);
    var k := a.TryThrowing(true, false, Millis(100.0), error);
    outcome := a.attempts[k].outcome;
    inProgress := a.isRequestInProgress;
    armed := a.timeout.pending.Some?;
  }

  /**
   * A request with a 100 ms timeout that outlives it: the timer aborts it
   * with the timeout `AbortError`, the aborter reports `aborted`, and the
   * request's rejection with that reason rejects the promise.
   */
  method TimedOutRequestRejects() returns (outcome: Outcome, aborted: bool)
    ensures outcome == RejectedWith(Err(TimeoutAbortError(Some(TimeoutErrorOptions(Some(100.0), None)))))
    ensures aborted
  {
    var a, k := TimedOutRequest();
    aborted := a.Aborted();
    var reason := a.signals[a.attempts[k].signal].reason;
    a.Settle(k, Reject(reason));
    outcome := a.attempts[k].outcome;
  }

  /** A new aborter whose one request, with a 100 ms timeout, has been aborted by its timer. */
  method TimedOutRequest() returns (a: Aborter, k: nat)
    ensures fresh(a) && fresh(a.timeout) && fresh(a.listeners) && fresh(a.listeners.state)
    ensures a.Valid() && a.Aborted()
    ensures k < |a.attempts| && k < a.microtasksRun && !a.attempts[k].settled && !a.attempts[k].native
    ensures a.attempts[k].signal < |a.signals|
    ensures a.signals[a.attempts[k].signal].reason == Err(TimeoutAbortError(Some(TimeoutErrorOptions(Some(100.0), None))))
  {
    a, k := TimedRequest();
    a.FireTimer();
  }

  /** A new aborter whose one request, with a 100 ms timeout, is pending with its timer armed. */
  method TimedRequest() returns (a: Aborter, k: nat)
    ensures fresh(a) && fresh(a.timeout) && fresh(a.listeners) && fresh(a.listeners.state)
    ensures a.Valid() && a.microtasksRun == |a.attempts| == 1 && k == 0
    ensures !a.attempts[0].settled && !a.attempts[0].native && a.attempts[0].signal == a.current
    ensures a.signals[a.current] == FreshSignal
    ensures a.timeout.pending.Some?
    ensures a.timeout.pending.value.callback == TimeoutAbort(Some(TimeoutErrorOptions(Some(100.0), None)))
  {
    a := new Aborter(None, None);
    k := a.Try(true, false, Millis(100.0));
    a.RunMicrotask();
  }
}
