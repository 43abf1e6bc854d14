/**
 * The earlier coordinator `EventListener`: one listener set, for 'abort',
 * and an `onabort` handler called before it.  Calls are recorded in the
 * ghost `calls` trace.
 */
module LegacyEventListeners {
  import opened Wrappers
  import opened Js
  import opened OrderedSets
  import opened EventListeners

  class LegacyEventListener {
    /** `abortListeners`, the set `getListenersByType('abort')` returns. */
    var abortListeners: seq<CallbackId>
    var onabort: Option<CallbackId>
    ghost var calls: seq<EventCall<Value>>

    ghost predicate Valid()
      reads this
    {
      NoDup(abortListeners)
    }

    /** `new EventListener({ onabort })`. */
    constructor(onAbort: Option<CallbackId>)
      ensures Valid()
      ensures abortListeners == [] && onabort == onAbort && calls == []
    {
      abortListeners := [];
      onabort := onAbort;
      calls := [];
    }

    /** `addEventListener('abort', listener)`: returns nothing, unlike the later listener. */
    method AddEventListener(listener: CallbackId)
      requires Valid()
      modifies this
      ensures Valid()
      ensures abortListeners == Insert(old(abortListeners), listener)
      ensures onabort == old(onabort) && calls == old(calls)
    {
      abortListeners := Insert(abortListeners, listener);
    }

    /** `removeEventListener('abort', listener)`. */
    method RemoveEventListener(listener: CallbackId)
      requires Valid()
      modifies this
      ensures Valid()
      ensures abortListeners == Delete(old(abortListeners), listener)
      ensures onabort == old(onabort) && calls == old(calls)
    {
      abortListeners := Delete(abortListeners, listener);
    }

    /** `emitEvent('abort', event)`: `onabort` first, then every listener in insertion order. */
    method EmitEvent(event: Value)
      requires Valid()
      modifies this
      ensures Valid()
      ensures calls == old(calls) + DispatchCalls(AbortedEvent, onabort, abortListeners, event)
      ensures abortListeners == old(abortListeners) && onabort == old(onabort)
    {
      ghost var first := if onabort.Some? then [EventCall(onabort.value, event)] else [];
      if onabort.Some? {
        calls := calls + [EventCall(onabort.value, event)];
      }
      var made := CallListeners(abortListeners, event);
      calls := calls + made;
      assert calls == old(calls) + (first + made);
    }
  }

  /** Each 'abort' listener present is called exactly once by an emit, after `onabort`. */
  lemma {:induction false} EmitCallsEachListenerOnce<E>(onabort: Option<CallbackId>, listeners: seq<CallbackId>, event: E, cb: CallbackId)
    requires NoDup(listeners) && onabort != Some(cb)
    ensures multiset(DispatchCalls(AbortedEvent, onabort, listeners, event))[EventCall(cb, event)]
            == if cb in listeners then 1 else 0
  {
    CallEachCount(listeners, event, cb);
    var head: seq<EventCall<E>> := if onabort.Some? then [EventCall(onabort.value, event)] else [];
    assert DispatchCalls(AbortedEvent, onabort, listeners, event) == head + CallEach(listeners, event);
  }

  lemma {:induction false} CallEachCount<E>(listeners: seq<CallbackId>, event: E, cb: CallbackId)
    requires NoDup(listeners)
    ensures multiset(CallEach(listeners, event))[EventCall(cb, event)] == if cb in listeners then 1 else 0
  {
    if listeners != [] {
      assert NoDup(listeners[1..]) && listeners[0] !in listeners[1..];
      CallEachCount(listeners[1..], event, cb);
      assert CallEach(listeners, event) == [EventCall(listeners[0], event)] + CallEach(listeners[1..], event);
      assert listeners == [listeners[0]] + listeners[1..];
    }
  }
}
