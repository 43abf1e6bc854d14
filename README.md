# saborter request cancellation, modelled in Dafny

saborter wraps the platform's `AbortController` so that a new request can
cancel the previous one. This project models the parts that do this:

- The `Aborter` coordinator. It runs one request at a time under its own controller. A new `try` cancels the request in progress. `abort` aborts it. An optional timer aborts it after a delay. The request state and the abort events are published through an `EventListener` and its `StateObserver`.
- The `ReusableAborter`. Its signal is replaced after every abort, and the listeners registered so far are carried over to the new signal.
- The abort-error toolkit: the classifier `isError` (exported as `isAbortError`), its cause check and `getCauseMessage`, `catchAbortError`, `rethrowAbortError`, `throwIfAborted`, `getAbortErrorByReason`, and the path reader `get`.
- `timeInMilliseconds` and the `Timeout` wrapper.
- The earlier versions: the first `Aborter` with its message normalisation, its single-type `EventListener`, and two earlier classifiers.

JavaScript values are one datatype, `Js.Value`. Error objects are records, and their class stands for `instanceof`. Objects are ordered property lists. Callbacks are identities. A callback that is "called" gets an entry in a ghost trace and does not run.

Objects whose fields the source updates in place are classes:

- `Aborter`, `ReusableAborter`, `Timeout`, `EventListener`, `StateObserver`.
- The legacy `Aborter` and `EventListener`.

Each class's methods state the whole new state. Each class keeps a `Valid()` invariant.

JavaScript `Set`s are duplicate-free sequences in insertion order (`OrderedSets`). The platform's controller and signal are the value `Signals.Signal`. It holds:

- whether the signal is aborted, and its reason;
- its `onabort` handler;
- its listener list, which follows section 2.7 of the WHATWG DOM Standard: `addEventListener` ignores a listener already present with the same type, callback and capture.

The asynchronous steps of `try` are methods the environment calls:

- `RunMicrotask` runs the queued 'pending' notification.
- `Settle` settles the request of one attempt.
- `FireTimer` runs the request timer.

## Model

| member | source | states |
|---|---|---|
| SharedUtils.IsObject | src/shared/utils/is-object.ts:1-3 | a value is an object exactly when it is a non-null, non-array object (a plain object or an error object) |
| SharedUtils.Split | src/shared/utils/get.ts:2 | `path.split('.')` has at least one segment; `SplitSegmentsAreDotFree` and `JoinSplit` give its meaning |
| SharedUtils.Join | src/shared/utils/get.ts:2 | the dot join, inverse to `Split` as `JoinSplit` and `SplitJoin` prove |
| SharedUtils.Step | src/shared/utils/get.ts:2 | one step of the fold, `acc && acc[key]`; a falsy accumulator is kept (`ReduceFalsy`) |
| SharedUtils.Reduce | src/shared/utils/get.ts:2 | the fold of `Step` over the segments; it composes over concatenated segment lists (`ReduceConcat`) |
| SharedUtils.Get | src/shared/utils/get.ts:1-2 | `get(object, path)` reads nested properties and stops at the first falsy value (`GetPathConcat`, `GetFalsy`, `GetSingleKey`) |
| SharedUtils.JoinSplit | src/shared/utils/get.ts:1-2 | joining the segments of `path.split('.')` with dots gives the path back |
| SharedUtils.SplitJoin | src/shared/utils/get.ts:1-2 | splitting a join of dot-free segments gives the segments back |
| SharedUtils.SplitSegmentsAreDotFree | src/shared/utils/get.ts:1-2 | no segment of a split contains a dot |
| SharedUtils.SplitDotFree | src/shared/utils/get.ts:1-2 | a dot-free path is a single segment |
| SharedUtils.SplitPrefix | src/shared/utils/get.ts:1-2 | a dot-free prefix followed by a dot becomes a segment of its own |
| SharedUtils.JoinConcat | src/shared/utils/get.ts:1-2 | joining two segment lists joins their joins with a dot |
| SharedUtils.SplitConcat | src/shared/utils/get.ts:1-2 | splitting `p.q` gives the segments of `p` followed by those of `q` |
| SharedUtils.ReduceConcat | src/shared/utils/get.ts:2 | folding over `a + b` folds over `a`, then over `b` |
| SharedUtils.ReduceFalsy | src/shared/utils/get.ts:2 | once the accumulator is falsy, the `&&` fold returns it unchanged |
| SharedUtils.GetFalsy | src/shared/utils/get.ts:1-2 | `get` on a falsy value returns that value, whatever the path |
| SharedUtils.GetPathConcat | src/shared/utils/get.ts:1-2 | `get(o, 'p.q')` is `get(get(o, 'p'), 'q')` |
| SharedUtils.GetSingleKey | src/shared/utils/get.ts:1-2 | a dot-free path on a truthy value reads that one property |
| SharedUtils.GetMissingKey | src/shared/utils/get.ts:1-2 | a key an object does not have reads as undefined |
| SharedUtils.GetArrayIndex | src/shared/utils/get.ts:1-2 | a decimal segment indexes into an array |
| SharedUtils.GetEmptyPath | src/shared/utils/get.ts:1-2 | the empty path reads the property named "" |
| SharedUtils.LookupSkipsOtherKey | src/shared/utils/get.ts:2 | a property under another key, wherever it stands in the list, does not change the lookup |
| SharedUtils.DottedKeyUnreachable | src/shared/utils/get.ts:1-2 | a top-level property whose key contains a dot, wherever it stands, is never reached by any path |
| Js.ErrorMember | src/features/abort-error/abort-error.types.ts:26-49 | reading a property of an error object reads the record's field |
| Js.OnlyCauseEnumerable | src/features/lib/time-in-milliseconds/time-in-milliseconds.lib.ts:79 | an `Error` whose only data field is its cause lists that cause among its own enumerable properties exactly when the cause was assigned as a field, not installed by `new Error(message, { cause })` |
| AbortErrors.NewAbortError | src/features/abort-error/abort-error.types.ts:26-49 | a new `AbortError` has the name "AbortError", the given message, type, initiator, reason and cause |
| AbortErrors.NewTimeoutError | src/features/timeout/timeout-error.ts:30-35 | a new `TimeoutError` has `hasThrow` true only when the option says so, and `ms` copied from the options |
| AbortErrorLib.IsError | src/features/abort-error/abort-error.lib.ts:14-18 | an `AbortError` instance is an abort; the `'name' in` test throws exactly on primitives |
| AbortErrorLib.IsErrorOnErrorObject | src/features/abort-error/abort-error.lib.ts:14-18 | on an error object: an instance, or the name "AbortError", or a listed message, or a cause that marks an abort |
| AbortErrorLib.IsErrorOnPlainObject | src/features/abort-error/abort-error.lib.ts:14-18 | the same four tests read on a plain object's properties |
| AbortErrorLib.CheckErrorCause | src/features/abort-error/abort-error.lib.ts:10-12 | the cause check reads the paths `cause.name` and `cause.message`; `CheckErrorCauseMeaning` states what it decides |
| AbortErrorLib.GetCauseMessage | src/features/abort-error/abort-error.lib.ts:20-22 | `get(error, 'cause.message')`; `GetCauseMessageMeaning` states what it returns |
| AbortErrorLib.CausePath | src/features/abort-error/abort-error.lib.ts:10-12 | `get(v, 'cause.k')` is the cause's `k` when `v` and its cause are truthy, and falsy otherwise |
| AbortErrorLib.CauseNamePath | src/features/abort-error/abort-error.lib.ts:11 | the same, for the path `cause.name` |
| AbortErrorLib.CauseMessagePath | src/features/abort-error/abort-error.lib.ts:12 | the same, for the path `cause.message` |
| AbortErrorLib.CheckErrorCauseMeaning | src/features/abort-error/abort-error.lib.ts:10-12 | the cause check holds exactly when the value is truthy and its cause is a truthy value named "AbortError" or carrying a listed message |
| AbortErrorLib.FalsyIsNoAbortMark | src/features/abort-error/abort-error.lib.ts:10-12 | a falsy value is neither the abort name nor a listed message |
| AbortErrorLib.GetCauseMessageMeaning | src/features/abort-error/abort-error.lib.ts:20-22 | `getCauseMessage` is the cause's message when there is a truthy cause, and falsy otherwise |
| AbortErrorLib.ConstructedAbortErrorRecognised | src/features/abort-error/abort-error.lib.ts:15 | every `AbortError` the library builds is an abort |
| AbortErrorLib.DefaultReasonRecognised | src/features/abort-error/abort-error.lib.ts:16 | the platform's default abort reason (a `DOMException` named "AbortError") is an abort |
| AbortErrorLib.ErrorCausedByAbortRecognised | src/features/abort-error/abort-error.lib.ts:10-12 | an error whose cause is an `AbortError` is an abort |
| AbortErrorLib.NestedCauseNotInspected | src/features/abort-error/abort-error.lib.ts:10-12 | an `AbortError` two causes down is not seen |
| AbortErrorLib.MessageMatchedWhole | src/features/abort-error/abort-error.lib.ts:17 | a message that only contains a listed message is not listed |
| AbortErrorHandling.CatchAbortError | src/features/lib/catch-abort-error/catch-abort-error.lib.ts:35-49 | strict mode returns exactly for instances; lenient mode returns exactly for classified aborts; whatever is thrown in strict mode or for an object is the input itself, and in lenient mode a primitive makes the `'name' in` probe throw its `TypeError` |
| AbortErrorHandling.RethrowAbortError | src/features/lib/rethrow-abort-error/rethrow-abort-error.lib.ts:35-47 | strict mode rethrows exactly the instances; lenient mode rethrows exactly the classified aborts among objects; what is thrown in strict mode or for an object is the input itself, and in lenient mode a primitive makes the probe throw its `TypeError` |
| AbortErrorHandling.CatchAndRethrowComplementary | src/features/lib/rethrow-abort-error/rethrow-abort-error.lib.ts:35-47 | in either mode an error is silenced by one helper exactly when the other throws it |
| AbortErrorHandling.StrictCatchIsNarrower | src/features/lib/catch-abort-error/catch-abort-error.lib.ts:36-44 | what strict mode silences, lenient mode silences too |
| AbortErrorHandling.StrictRethrowIgnoresPrimitives | src/features/lib/rethrow-abort-error/rethrow-abort-error.lib.ts:36-41 | strict mode never consults the classifier, so primitives never make it throw a `TypeError` |
| AbortErrorHandling.ThrowIfAborted | src/features/lib/throw-if-aborted/throw-if-aborted.lib.ts:30-38 | returns exactly for live signals; throws the reason itself when it is an `AbortError`, otherwise a new system `AbortError` that keeps the reason |
| AbortErrorHandling.ThrownAbortIsCaught | src/features/lib/throw-if-aborted/throw-if-aborted.lib.ts:30-38 | what `throwIfAborted` throws is silenced by `catchAbortError` and rethrown by `rethrowAbortError`, in either mode |
| AbortErrorHandling.ThrowIfAbortedAfterAbort | src/features/lib/throw-if-aborted/throw-if-aborted.lib.ts:33-37 | after aborting with an `AbortError`, that very error is thrown; after an abort without reason, the thrown error keeps the default `DOMException` as reason |
| AborterUtils.GetAbortErrorByReason | src/modules/aborter/aborter.utils.ts:4-14 | the result is always an `AbortError`; an `AbortError` reason is returned as is; any other reason is wrapped in a user-initiated 'aborted' error that keeps it as `reason` |
| AborterUtils.GetAbortErrorByReasonIdempotent | src/modules/aborter/aborter.utils.ts:4-14 | wrapping twice is wrapping once |
| AborterUtils.AbortErrorByReasonWellFormed | src/modules/aborter/aborter.utils.ts:4-14 | the error an abort is carried out with has a type and is classified as an abort |
| TimeInMilliseconds.ThrowErrorIfValuesNotMatchTyping | src/features/lib/time-in-milliseconds/time-in-milliseconds.lib.ts:34-44 | completes normally exactly when every value is a number or undefined; otherwise throws the `TypeError` with the library's message |
| TimeInMilliseconds.TimeInMs | src/features/lib/time-in-milliseconds/time-in-milliseconds.lib.ts:78-88 | fails exactly on null, undefined, or a configuration with an own value that is not a number or undefined, and the failure is a `TypeError` |
| TimeInMilliseconds.Component | src/features/lib/time-in-milliseconds/time-in-milliseconds.lib.ts:81 | a destructured component with default 0: the number under the key, or zero (`ObjectComponent`; after validation nothing else can be there, `ValidatedComponents`) |
| TimeInMilliseconds.Total | src/features/lib/time-in-milliseconds/time-in-milliseconds.lib.ts:83-87 | milliseconds plus seconds, minutes and hours weighted by 1000, 60000 and 3600000 (`NonNegativeTotal`, the worked examples) |
| TimeInMilliseconds.ObjectComponent | src/features/lib/time-in-milliseconds/time-in-milliseconds.lib.ts:81 | on a plain object a component is the number under its key, and zero when the key is absent |
| TimeInMilliseconds.ComponentIs | src/features/lib/time-in-milliseconds/time-in-milliseconds.lib.ts:81 | a number under the key is the component read |
| TimeInMilliseconds.ValidatedProperty | src/features/lib/time-in-milliseconds/time-in-milliseconds.lib.ts:79 | once the values of a property list pass validation, every key reads a number or nothing |
| TimeInMilliseconds.ValidatedErrorField | src/features/lib/time-in-milliseconds/time-in-milliseconds.lib.ts:79-81 | every field of an error object other than `name`, `message` and a `cause` installed by the `Error` constructor is among its own enumerable values, so the validation covers it |
| TimeInMilliseconds.ValidatedComponents | src/features/lib/time-in-milliseconds/time-in-milliseconds.lib.ts:79-81 | after validation every component read is a number or absent |
| TimeInMilliseconds.ValidatedMember | src/features/lib/time-in-milliseconds/time-in-milliseconds.lib.ts:79-81 | after validation any key other than `name`, `message`, a constructor-installed `cause` or an array index reads a number or nothing, on every kind of value |
| TimeInMilliseconds.ConstructorCauseNotValidated | src/features/lib/time-in-milliseconds/time-in-milliseconds.lib.ts:79-87 | an `Error` whose only data field is a non-numeric cause yields 0 when the `Error` constructor installed the cause, since `Object.values` skips it, and fails validation when the cause was assigned |
| TimeInMilliseconds.OrderIndependent | src/features/lib/time-in-milliseconds/time-in-milliseconds.lib.ts:78-88 | the order in which the components are written does not change the result |
| TimeInMilliseconds.AnyNonNumberRejected | src/features/lib/time-in-milliseconds/time-in-milliseconds.lib.ts:79 | a string under any key, not only the four components, rejects the configuration |
| TimeInMilliseconds.EmptyConfigIsZero | src/features/lib/time-in-milliseconds/time-in-milliseconds.lib.ts:81 | missing components default to zero |
| TimeInMilliseconds.MinuteAndAHalfExample | src/features/lib/time-in-milliseconds/time-in-milliseconds.lib.ts:67 | one minute thirty seconds is 90000 ms |
| TimeInMilliseconds.FullDurationExample | src/features/lib/time-in-milliseconds/time-in-milliseconds.lib.ts:71-76 | one hour thirty minutes forty-five seconds and 500 ms is 5445500 ms |
| TimeInMilliseconds.FullDurationValid | src/features/lib/time-in-milliseconds/time-in-milliseconds.lib.ts:71-76 | the documented configuration passes validation |
| TimeInMilliseconds.FullDurationHours | src/features/lib/time-in-milliseconds/time-in-milliseconds.lib.ts:72 | the documented configuration reads 1 hour |
| TimeInMilliseconds.FullDurationMinutes | src/features/lib/time-in-milliseconds/time-in-milliseconds.lib.ts:73 | the documented configuration reads 30 minutes |
| TimeInMilliseconds.FullDurationSeconds | src/features/lib/time-in-milliseconds/time-in-milliseconds.lib.ts:74 | the documented configuration reads 45 seconds |
| TimeInMilliseconds.FullDurationMilliseconds | src/features/lib/time-in-milliseconds/time-in-milliseconds.lib.ts:75 | the documented configuration reads 500 milliseconds |
| TimeInMilliseconds.PrimitiveConfigs | src/features/lib/time-in-milliseconds/time-in-milliseconds.lib.ts:78-88 | numbers and booleans read as zero; a non-empty string fails on its characters |
| TimeInMilliseconds.NonNegativeTotal | src/features/lib/time-in-milliseconds/time-in-milliseconds.lib.ts:83-87 | non-negative components give a non-negative total |
| OrderedSets.Insert | src/features/state-observer/state-observer.ts:35 | `Set.add` appends an element that is absent, leaves the set as it is otherwise, and keeps it duplicate-free |
| OrderedSets.Delete | src/features/state-observer/state-observer.ts:46 | `Set.delete` removes exactly that element, keeps the order of the rest, and keeps the set duplicate-free |
| OrderedSets.DeleteInserted | src/features/event-listener/event-listener.ts:36-48 | adding an absent listener and removing it again gives the set back |
| OrderedSets.DeleteIdempotent | src/features/event-listener/event-listener.ts:44-49 | removing twice is removing once |
| Timers.Timeout.constructor | src/features/timeout/timeout.ts:1-2 | a new timeout has no handle and nothing pending |
| Timers.Timeout.ClearTimeout | src/features/timeout/timeout.ts:18-23 | the pending timer is cancelled and the handle forgotten |
| Timers.Timeout.SetTimeout | src/features/timeout/timeout.ts:7-13 | the previous timer is cleared; only a positive delay arms a new timer, with the given callback, under a new handle |
| Timers.Timeout.Elapse | src/features/timeout/timeout.ts:12 | the platform runs the pending timer's callback once; the spent handle stays in `timeoutId` |
| StateObservers.Deliveries | src/features/state-observer/state-observer.ts:54-61 | one emit calls each subscriber in insertion order with the state, then `onstatechange` |
| StateObservers.Notify | src/features/state-observer/state-observer.ts:57-59 | the subscribers' calls of one emit: one per subscriber, in insertion order, each with the state |
| StateObservers.NotifySubscribers | src/features/state-observer/state-observer.ts:57-59 | the `forEach` over the subscribers makes exactly the calls `Notify` describes |
| StateObservers.NotifiedOnce | src/features/state-observer/state-observer.ts:57-59 | each subscriber hears an emit exactly once, and a non-subscriber never does |
| StateObservers.SelfUnsubscribedNotNotifiedAgain | src/features/state-observer/state-observer.ts:46-59 | a subscriber that unsubscribed itself gets no call on the next emit |
| StateObservers.NotifyAppend | src/features/state-observer/state-observer.ts:57-59 | notifying one more subscriber appends one call |
| StateObservers.StateObserver.constructor | src/features/state-observer/state-observer.ts:25-27 | a new observer has no value, no subscribers, and the given `onstatechange` |
| StateObservers.StateObserver.Subscribe | src/features/state-observer/state-observer.ts:34-38 | the callback is added once, and the returned function unsubscribes it |
| StateObservers.StateObserver.Unsubscribe | src/features/state-observer/state-observer.ts:45-47 | the callback is removed |
| StateObservers.StateObserver.RunUnsubscriber | src/features/state-observer/state-observer.ts:37 | calling the returned function removes exactly that callback |
| StateObservers.StateObserver.Emit | src/features/state-observer/state-observer.ts:54-61 | the value becomes the state and the calls are `Deliveries` of the current subscribers and handler |
| StateObservers.StateObserver.EmitWithSelfUnsubscribe | src/features/state-observer/state-observer.ts:54-61 | a subscriber that unsubscribes itself while it is called stops no later subscriber: every subscriber present at the start is called once, in order, then `onstatechange`; afterwards exactly that subscriber is gone |
| StateObservers.StateObserver.Clear | src/features/state-observer/state-observer.utils.ts:12-17 | every listener and the stored state are dropped |
| EventListeners.CallEach | src/features/event-listener/event-listener.ts:58 | each listener is called once with the event, in order |
| EventListeners.DispatchCalls | src/features/event-listener/event-listener.ts:54-59 | `onabort` is called first for 'aborted' and 'cancelled', then every listener of the type in order |
| EventListeners.DispatchReachesOnlyItsType | src/features/event-listener/event-listener.ts:54-59 | a dispatch never reaches a listener of another type, and `onabort` never hears 'timeout' |
| EventListeners.CallListeners | src/features/event-listener/event-listener.ts:58 | the `forEach` makes exactly the calls `CallEach` describes |
| EventListeners.CallEachAppend | src/features/event-listener/event-listener.ts:58 | one more listener appends one call |
| EventListeners.EventListener.constructor | src/features/event-listener/event-listener.ts:16-21 | a new listener has no sets, the given `onabort`, and a fresh state observer with the given `onStateChange` |
| EventListeners.EventListener.AddEventListener | src/features/event-listener/event-listener.ts:23-39 | the listener is added to its type's set, created on first use, and the returned function removes it |
| EventListeners.EventListener.RemoveEventListener | src/features/event-listener/event-listener.ts:44-49 | the listener is removed from its type's set, which is created if needed |
| EventListeners.EventListener.RunRemover | src/features/event-listener/event-listener.ts:38 | calling the returned function removes exactly that listener of that type |
| EventListeners.EventListener.DispatchEvent | src/features/event-listener/event-listener.ts:54-59 | the calls made are `DispatchCalls` of the current `onabort` and the type's set |
| EventListeners.EventListener.Clear | src/features/event-listener/event-listener.ts:65-69 | every set and `onabort` are dropped, and the state observer is cleared |
| Signals.SignalAbort | src/modules/aborter/aborter.ts:137 | a signal aborts once and keeps its first reason; an undefined reason becomes the default `DOMException`; listeners and `onabort` are kept |
| Signals.AddListener | src/modules/reusable-aborter/reusable-aborter.ts:76-80 | the native add leaves the list as it is when an equal listener is present, and appends otherwise; the list stays duplicate-free |
| Signals.RemoveListener | src/modules/reusable-aborter/reusable-aborter.ts:95 | the native remove drops exactly the entry with the same type, callback and capture |
| Signals.WithoutDuplicateFree | src/modules/reusable-aborter/reusable-aborter.ts:95 | removing entries keeps a listener list duplicate-free |
| Aborters.TimeoutOptionsOf | src/modules/aborter/aborter.ts:82-84 | a numeric timeout gives `{ ms }`; an object gives its `ms` and `hasThrow`; no timeout gives no options |
| Aborters.TimeoutAbortError | src/modules/aborter/aborter.ts:86-90 | a timeout aborts with an 'aborted' `AbortError` from 'timeout' whose cause is a `TimeoutError` |
| Aborters.TimeoutAbortCarriesSetting | src/modules/aborter/aborter.ts:82-90 | the timeout error's cause records the delay and `hasThrow` of the setting, and the error is classified as an abort |
| Aborters.FulfilmentOutcome | src/modules/aborter/aborter.ts:103-109 | with `unpackData`, a `Response` resolves with its parsed body or rejects with the parse error; any other value resolves as it is |
| Aborters.OnRequestError | src/modules/aborter/aborter.ts:111-121 | native mode and non-abort errors reject and publish 'rejected'; an 'aborted' `AbortError` always rejects; a 'cancelled' one stays pending in the default mode |
| Aborters.SilencedAborts | src/modules/aborter/aborter.ts:111-121 | in the default mode a classified abort other than an 'aborted' `AbortError` leaves the promise pending and publishes nothing |
| Aborters.Aborter.constructor | src/modules/aborter/aborter.ts:12-27 | a new aborter has one live controller, no request in progress, no timer, and listeners built from the options |
| Aborters.Aborter.Aborted | src/modules/aborter/aborter.ts:32-34 | `aborted` is true exactly when the signal is aborted and the last published state is 'aborted' |
| Aborters.Aborter.Signal | src/modules/aborter/aborter.ts:40-42 | the `signal` getter: the current controller's signal |
| Aborters.Aborter.SetRequestState | src/modules/aborter/aborter.ts:44-51 | the state is emitted; 'fulfilled', 'rejected' and 'aborted' also clear the timer and end the request |
| Aborters.Aborter.Abort | src/modules/aborter/aborter.ts:130-140 | outside a request nothing changes; otherwise the reason's `AbortError` is dispatched under its type, the controller is aborted with it, and its type's state is published (the observer's value and one delivery to each subscriber and `onstatechange`); 'aborted' ends the request, 'cancelled' does not; the registered listeners, `onabort`, subscribers and `onstatechange` stay as they were |
| Aborters.Aborter.AbortRequest | src/modules/aborter/aborter.ts:132-139 | during a request the reason's `AbortError` is dispatched under its type, the controller is aborted with it, and its type's state is published (value and deliveries); 'aborted' ends the request and clears the timer, 'cancelled' keeps both; the registered callbacks stay as they were |
| Aborters.Aborter.DispatchAbort | src/modules/aborter/aborter.ts:134-137 | the dispatch makes exactly `DispatchCalls` of the type's listeners and `onabort`, the current controller is aborted with the error, no state is published, and the registered callbacks stay as they were |
| Aborters.Aborter.Try | src/modules/aborter/aborter.ts:63-98 | a request in progress is first cancelled with the system 'cancelled' error, which dispatches 'cancelled' to its listeners and publishes the 'cancelled' state; with none, nothing is dispatched or published; then a new controller is taken, the request marked in progress, the timer armed exactly for positive delays, and the attempt recorded on the new signal; the registered callbacks stay as they were |
| Aborters.Aborter.TryThrowing | src/modules/aborter/aborter.ts:77-98 | a request function that throws inside the executor rejects the promise with the raw error; the cancellation of a previous request is dispatched and published as in `Try`; the flag stays set, the timer stays armed and no 'rejected' state is published |
| Aborters.Aborter.StartRequest | src/modules/aborter/aborter.ts:77-96 | a new live controller is taken, the request marked in progress, the timer armed exactly for positive delays, and the attempt recorded on the new signal; nothing is published |
| Aborters.Aborter.RunMicrotask | src/modules/aborter/aborter.ts:96 | the queued microtask publishes 'pending' (one delivery to each subscriber and `onstatechange`), dispatches nothing and changes nothing else, the registered callbacks included |
| Aborters.Aborter.Settle | src/modules/aborter/aborter.ts:99-121 | a fulfilment counts only while a request is in progress, and then publishes 'fulfilled' and settles as `FulfilmentOutcome`; a failure has the effect `OnRequestError` gives; a silenced one leaves the timer and the observer untouched; no abort event is dispatched |
| Aborters.Aborter.Fulfil | src/modules/aborter/aborter.ts:99-110 | a fulfilment outside a request settles nothing and publishes nothing; during one it publishes 'fulfilled' (value and deliveries), ends the request and settles as `FulfilmentOutcome`; no other attempt changes |
| Aborters.Aborter.Reject | src/modules/aborter/aborter.ts:111-121 | a failure rejects and publishes 'rejected' exactly as `OnRequestError` says, clearing the timer when it does; a silenced failure leaves the timer, the observer and the listeners untouched; no other attempt changes |
| Aborters.Aborter.FireTimer | src/modules/aborter/aborter.ts:86-94 | a pending timer aborts the request with the timeout error: 'aborted' is dispatched to its listeners and `onabort`, the 'aborted' state is published, and `aborted` holds; without a pending timer nothing happens; the registered callbacks stay as they were |
| Aborters.Aborter.AbortWithRecovery | src/modules/aborter/aborter.ts:146-151 | aborts as `abort` does (the same dispatch, notices, listener calls, state, flag and timer), then takes a new live controller and returns it; outside a request only the new controller is taken |
| Aborters.Aborter.Dispose | src/modules/aborter/aborter.ts:156-160 | the timer and every listener are cleared with nothing dispatched or delivered; the controller and the in-progress flag stay |
| Aborters.CancelledRequestStaysPending | src/modules/aborter/aborter.ts:67-75 | a request cancelled by the next `try` never settles, while the next one resolves |
| Aborters.StaleFulfilmentWins | src/modules/aborter/aborter.ts:99-103 | a superseded request that fulfils first still resolves and ends the flag, so the current request's fulfilment is dropped |
| Aborters.TimedOutRequestRejects | src/modules/aborter/aborter.ts:86-94 | a request outliving its 100 ms timeout rejects with the timeout `AbortError`, and `aborted` holds |
| Aborters.TimedRequest | src/modules/aborter/aborter.ts:82-96 | after a first `try` with a 100 ms timeout and its 'pending' microtask, the timer is armed with the timeout abort and the request's signal is live |
| Aborters.TimedOutRequest | src/modules/aborter/aborter.ts:86-94 | when that timer fires, `aborted` holds and the request's signal carries the timeout `AbortError` |
| Aborters.SynchronousThrowRejectsRaw | src/modules/aborter/aborter.ts:96-121 | a 'cancelled' `AbortError` thrown synchronously rejects the promise, though the catch handler would have silenced it; the request stays in progress and armed |
| ReusableAborterUtils.CanAttractListeners | src/modules/reusable-aborter/reusable-aborter.utils.ts:26-47 | a falsy option gives false, `true` gives true, and an object gives its target field as it is |
| ReusableAborterUtils.OtherFieldIrrelevant | src/modules/reusable-aborter/reusable-aborter.utils.ts:40 | for an object option only the target's own field matters |
| ReusableAborterUtils.ObjectConfigGivesItsField | src/modules/reusable-aborter/reusable-aborter.utils.ts:40-46 | `{ eventListeners: e, onabort: o }` gives exactly `e` or `o` |
| ReusableAborterUtils.AttractsIff | src/modules/reusable-aborter/reusable-aborter.utils.ts:26-47 | for the documented option types, the result is truthy exactly for `true` or an object whose target field is truthy |
| ReusableAborters.RemoveFilterAsWritten | src/modules/reusable-aborter/reusable-aborter.ts:92-94 | as written, an entry survives removal only when both its type and its listener differ |
| ReusableAborters.RemoveRecorded | src/modules/reusable-aborter/reusable-aborter.ts:92-94 | the corrected filter drops exactly the entries with this type and this listener |
| ReusableAborters.RemoveAsWrittenForgetsOtherListener | src/modules/reusable-aborter/reusable-aborter.ts:92-94 | with two 'abort' listeners recorded, removing the first forgets both as written, and only the first when corrected |
| ReusableAborters.FiltersAgreeOn | src/modules/reusable-aborter/reusable-aborter.ts:92-94 | the two filters treat an entry alike exactly when it shares both or neither of the type and the listener |
| ReusableAborters.Recovered | src/modules/reusable-aborter/reusable-aborter.ts:123-130 | recovery re-adds the recorded entries and keeps the new signal's state, `onabort` and duplicate-freedom |
| ReusableAborters.RecoveredHoldsRecorded | src/modules/reusable-aborter/reusable-aborter.ts:125-127 | every recorded entry is on the recovered signal |
| ReusableAborters.RecoveredOnlyRecorded | src/modules/reusable-aborter/reusable-aborter.ts:125-127 | every listener of the recovered signal comes from a recorded entry, with its options |
| ReusableAborters.RecoveredHasNoOnce | src/modules/reusable-aborter/reusable-aborter.ts:75-80 | a recovered signal never holds a once-listener |
| ReusableAborters.ReusableAborter.constructor | src/modules/reusable-aborter/reusable-aborter.ts:46-54 | a new reusable aborter has one live signal and nothing recorded |
| ReusableAborters.ReusableAborter.Signal | src/modules/reusable-aborter/reusable-aborter.ts:136-138 | `signal` is the current controller's signal |
| ReusableAborters.ReusableAborter.AddEventListener | src/modules/reusable-aborter/reusable-aborter.ts:66-81 | a non-function listener throws a `TypeError` and changes nothing; a once-object is only forwarded; anything else is recorded and forwarded to the signal it was called on |
| ReusableAborters.ReusableAborter.RemoveEventListener | src/modules/reusable-aborter/reusable-aborter.ts:83-96 | a non-function listener throws a `TypeError`; otherwise the recorded list is filtered as written (`RemoveFilterAsWritten`) and the removal is forwarded to the signal it was called on |
| ReusableAborters.ReusableAborter.SetOnAbort | src/modules/reusable-aborter/reusable-aborter.ts:124 | assigning `onabort` on a signal changes only that signal |
| ReusableAborters.ReusableAborter.Abort | src/modules/reusable-aborter/reusable-aborter.ts:150-158 | the current signal is aborted with the reason; the new one is live, carries the old `onabort` and exactly the recorded listeners, none of them once; the recorded list is kept |
| ReusableAborters.DocumentedCycle | src/modules/reusable-aborter/reusable-aborter.ts:13-23 | a listener added through a stale signal goes onto that signal and is carried to the signal after the next abort |
| ReusableAborters.RemoveForgetsOtherListener | src/modules/reusable-aborter/reusable-aborter.ts:83-96 | removing one of two 'abort' listeners leaves the other on the signal it was called on, but the next signal gets no listener |
| ReusableAborters.CorrectedRemovalKeepsOtherListener | src/modules/reusable-aborter/reusable-aborter.ts:92-94 | with the corrected filter, the other listener would be carried to the next signal |
| ReusableAborters.OneRecovered | src/modules/reusable-aborter/reusable-aborter.ts:125-127 | recovering one recorded entry onto a signal without listeners registers exactly that entry |
| ReusableAborters.FirstOfTwoRemoved | src/modules/reusable-aborter/reusable-aborter.ts:66-96 | after adding listeners 1 and 2 for 'abort' and removing 1, the signal holds listener 2 and the record is empty |
| ReusableAborters.RemoveFirstOfTwo | src/modules/reusable-aborter/reusable-aborter.ts:95 | the native removal of listener 1 leaves listener 2 |
| ReusableAborters.TwoListenersRecovered | src/modules/reusable-aborter/reusable-aborter.ts:125-127 | recovering two recorded 'abort' entries adds both, in order |
| ReusableAborters.AddToEmpty | src/modules/reusable-aborter/reusable-aborter.ts:80 | the native add onto a signal without listeners registers the listener |
| ReusableAborters.AddSecondAbortListener | src/modules/reusable-aborter/reusable-aborter.ts:80 | the native add of a second callback for the same type appends it |
| ReusableAborters.FirstCycle | src/modules/reusable-aborter/reusable-aborter.ts:14-18 | after one listener and the first abort, the old signal is aborted with that listener and one entry is recorded |
| ReusableAborters.OnceListenerNotCarried | src/modules/reusable-aborter/reusable-aborter.ts:75-77 | a once-listener stays on its own signal and is not carried over |
| LegacyEventListeners.LegacyEventListener.constructor | src/modules/aborter/event-listener/event-listener.ts:11-13 | a new listener has no listeners and the given `onabort` |
| LegacyEventListeners.LegacyEventListener.AddEventListener | src/modules/aborter/event-listener/event-listener.ts:26-31 | the listener is added to the 'abort' set once |
| LegacyEventListeners.LegacyEventListener.RemoveEventListener | src/modules/aborter/event-listener/event-listener.ts:36-41 | the listener is removed from the 'abort' set |
| LegacyEventListeners.LegacyEventListener.EmitEvent | src/modules/aborter/event-listener/event-listener.ts:43-48 | `onabort` is called first, then every 'abort' listener in insertion order |
| LegacyEventListeners.EmitCallsEachListenerOnce | src/modules/aborter/event-listener/event-listener.ts:43-48 | each registered listener hears an emit exactly once, and an unregistered one never does |
| LegacyEventListeners.CallEachCount | src/modules/aborter/event-listener/event-listener.ts:47 | the `forEach` calls each listener of a duplicate-free set exactly once |
| LegacyUtils.IsError | src/utils/utils.ts:6-9 | an abort exactly when the message is listed, or the value is truthy and its cause is named "AbortError" or carries a listed message |
| LegacyUtils.HasListedMessage | src/utils/utils.ts:7 | the message read with optional chaining is one of the listed abort messages |
| LegacyUtils.PrimitivesAreNotAborts | src/utils/utils.ts:6-9 | no primitive is an abort, and nothing throws |
| LegacyUtils.NameAloneNotSufficient | src/utils/utils.ts:6-9 | there is no top-level name test |
| LegacyUtils.LaterClassifierIsWider | src/features/abort-error/abort-error.lib.ts:14-18 | every object this classifier accepts, the later one accepts too |
| LegacyUtils.DefaultReasonIsAbort | src/utils/utils.ts:7 | the default abort reason is an abort by its message |
| SharedLibUtils.IsError | src/shared/lib/utils.ts:11-14 | an abort exactly when it is an instance of the shared library's `AbortError` or the first classifier accepts it |
| SharedLibUtils.CheckErrorCause | src/shared/lib/utils.ts:7-9 | the cause check reads `cause.name` and `cause.message`; `SharedLibUtils.CheckErrorCauseMeaning` states what it decides |
| SharedLibUtils.CheckErrorCauseMeaning | src/shared/lib/utils.ts:7-9 | the cause check reads the cause's name and message as the later cause check does |
| SharedLibUtils.PlainNameNotSufficient | src/shared/lib/utils.ts:11-14 | a plain object named "AbortError" with no listed message is not an abort |
| SharedLibUtils.InstanceRecognised | src/shared/lib/utils.ts:12 | an instance is an abort whatever its message and cause |
| LegacyAborters.SetProperty | src/aborter.ts:47-50 | in an object literal the written key reads the new value and every other spread key reads what it read before; no spread property is lost |
| LegacyAborters.NormalisedMessage | src/aborter.ts:49 | the message is the error's own message when truthy, and is always truthy or '' |
| LegacyAborters.NormalisedMessageFromCause | src/aborter.ts:49 | without an own message, the message is the cause's truthy message, or '' |
| LegacyAborters.NormalisedError | src/aborter.ts:47-50 | the rejection is a plain object with the normalised message and the error's other own enumerable properties, a constructor-installed `cause` not among them |
| LegacyAborters.Reaction | src/aborter.ts:46-57 | the promise rejects exactly in native mode or for a non-abort, and then with the normalised copy |
| LegacyAborters.DefaultReasonReaction | src/aborter.ts:46-57 | an abort without reason is silenced in the default mode; in native mode it rejects with a plain object that has only the message |
| LegacyAborters.OnlyNameAndMessage | src/aborter.ts:48 | spreading a `DOMException` that has only its name and message copies nothing |
| LegacyAborters.OnlyNameAndMessageProps | src/aborter.ts:48 | an error whose data fields are all undefined exposes at most its name and message |
| LegacyAborters.ConstructorCauseNotSpread | src/aborter.ts:47-50 | spreading an `Error` whose only data field is its cause copies the cause exactly when it was assigned as a field; a cause installed by the `Error` constructor is lost |
| LegacyAborters.NameAndMessageNotSpread | src/aborter.ts:48 | a `DOMException`'s name and message are not own enumerable properties, so spreading them copies nothing |
| LegacyAborters.OwnMessageKept | src/aborter.ts:49 | a truthy own message is kept |
| LegacyAborters.LegacyAborter.constructor | src/aborter.ts:6 | a new aborter has one live controller and no attempts |
| LegacyAborters.LegacyAborter.Signal | src/aborter.ts:23-25 | `signal` is the current controller's signal |
| LegacyAborters.LegacyAborter.Abort | src/aborter.ts:66-69 | the current controller is aborted with the reason and a new one is taken |
| LegacyAborters.LegacyAborter.Try | src/aborter.ts:37-44 | the current controller is aborted without reason, two new controllers are taken, and the request runs on the last |
| LegacyAborters.LegacyAborter.TryThrowing | src/aborter.ts:37-44 | a request function that throws inside the executor rejects the promise with the error itself, not the normalised copy |
| LegacyAborters.LegacyAborter.Settle | src/aborter.ts:44-57 | a value resolves the promise; an error has the effect `Reaction` gives |
| LegacyAborters.SupersededRequestSilenced | src/aborter.ts:37-57 | in the default mode a request superseded by the next `try` never settles, and the next one resolves |
| LegacyAborters.SynchronousThrowNotSilenced | src/aborter.ts:37-55 | in the default mode the default abort reason thrown synchronously rejects the promise as it is, though the catch handler would have silenced it |
| LegacyAborters.TwoRequests | src/aborter.ts:37-44 | after two calls of `try`, the first attempt's controller has been aborted with the default reason and the second attempt is unsettled |
| LegacyAborters.NativeAbortRejects | src/aborter.ts:46-54 | in native mode an aborted request rejects with the normalised copy of the signal's reason |
| LegacyAborters.AbortedNativeRequest | src/aborter.ts:37-69 | a native-mode `try` followed by `abort()` leaves the attempt unsettled on a signal whose reason is the default `DOMException` |

## Left out

- Logging (`logger.info`) has no effect on state and is not modelled.
- Callbacks do not run. Listeners, subscribers, `onabort`, `onstatechange` and the request function are identities, and a call is an entry in a ghost trace. A callback that re-enters the object it was called from is not modelled.
- Promises and the event loop are not modelled directly. Each asynchronous step is a method the environment calls. The parse of a `Response` body is folded into `Aborters.Aborter.Settle`.
- Numbers are reals. NaN, infinities and -0 are not modelled, so the NaN checks of `timeInMilliseconds` and `Timeout.setTimeout` are not captured.
- Firing the platform's `abort` event when a controller aborts is not modelled. Neither is removing a once-listener after it fires. `Signals.SignalAbort` records only the aborted flag and the reason.
- The `AbortError`, `TimeoutError` and shared-library `AbortError` constructors are records filled in by functions. `code`, `isCancelled`, `timestamp` (a clock read) and stack traces are not modelled.
- The `AbortError` class that takes `{ type, initiator, reason, cause }` is not part of this model; only its options type is. `AbortErrors.NewAbortError` takes every field, `cause` included, as assigned in the constructor and hence own and enumerable. A `TimeoutError` or platform error has no enumerable `cause`.
- Js.Member: properties of primitives (a string's `length`, say), an array's `length` and inherited members other than `name` read as `undefined`. The keys the modelled code reads (`name`, `message`, `cause.message`, the four time units) are own fields or missing on such values, so only a caller of `get` with another path sees the difference.
- The wording of engine `TypeError`s, such as the one `Object.values(null)` throws, is a fixed stand-in.
- Aborters.Aborter.Dispose: it is the method under `disposeSymbol`. Running it through `using` declarations is not modelled.
- StateObservers.StateObserver.Clear: the observer's clear method is not in state-observer.ts as given. The model follows the doc comment of `clearStateListeners`: drop every listener and the stored data.
- EventListeners.EventListener.DispatchEvent: the 'timeout' event type exists, but no code dispatches it. A timeout dispatches 'aborted'.
- Aborters.Aborter.Settle: it requires the attempt's own microtask to have run. This fixes the interleavings the model allows. A request that settles synchronously, before its 'pending' notification, is not modelled.
- Aborters.Aborter.FireTimer: it requires an empty microtask queue. A timer that fires between queued microtasks is not modelled.
- Aborters.Aborter.Abort: it requires a typed reason. This always holds, because the `AbortError` constructor defaults the type to 'aborted'.
- ReusableAborters.ReusableAborter: the overriding of a signal's methods and the saving of the native ones are not modelled as functions stored in fields. The patched add and remove are methods that take the index of the signal they are called on.
- The `attractListeners` constructor option is not read by `ReusableAborter` in the source, so only `canAttractListeners` itself is modelled.
- LegacyAborters.SetProperty: keys keep insertion order. A JavaScript object lists integer-like keys first, in ascending order, so an object built here can differ from the engine's in the order of its keys. No lookup differs.
- StateObservers.StateObserver.Emit: of the callbacks that change the subscriber set during an emit, only a subscriber removing itself is modelled (`EmitWithSelfUnsubscribe`). Removing a subscriber not yet reached, or adding a new one, is not modelled.
- The legacy `get` functions in src/utils/utils.ts:3-4 and src/shared/lib/utils.ts:4-5 are the same expression as the shared one, so both classifiers use `SharedUtils.Get`.

## Findings

| source | as written | input that shows it | evidently intended | confidence | as-written member | corrected member |
|---|---|---|---|---|---|---|
| src/modules/reusable-aborter/reusable-aborter.ts:92-94 | the removal filter keeps an entry only when `arg.type !== type && arg.listener !== listener`, so it drops every entry of the same type and every entry of the same listener | add listeners 1 and 2 for 'abort', remove listener 1: the recorded list becomes empty, and listener 2 is not carried to the next signal | drop only the entry with this type and this listener, as the native removal does | high, not executed | ReusableAborters.RemoveFilterAsWritten, ReusableAborters.RemoveForgetsOtherListener | ReusableAborters.RemoveRecorded, ReusableAborters.CorrectedRemovalKeepsOtherListener |
