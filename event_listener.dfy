/**
 * The coordinator's `EventListener`: per-type listener sets created on
 * first use, an `onabort` handler that hears 'aborted' and 'cancelled'
 * events, and the `StateObserver` it owns.
 */
module EventListeners {
  import opened Wrappers
  import opened Js
  import opened OrderedSets
  import opened StateObservers

  /** `EventListenerType`: 'aborted' | 'cancelled' | 'timeout'. */
  datatype EventType = AbortedEvent | CancelledEvent | TimeoutEvent

  /** One invocation of an event callback with the event it received. */
  datatype EventCall<E> = EventCall(callback: CallbackId, event: E)

  /** The function `addEventListener` returns: calling it removes the listener. */
  datatype Remover = Remover(eventType: EventType, callback: CallbackId)

  /** Whether `onabort` hears an event of this type. */
  predicate HeardByOnAbort(t: EventType) {
    t == AbortedEvent || t == CancelledEvent
  }

  function CallEach<E>(callbacks: seq<CallbackId>, event: E): (r: seq<EventCall<E>>)
    ensures |r| == |callbacks| && forall i :: 0 <= i < |callbacks| ==> r[i] == EventCall(callbacks[i], event)
  {
    if callbacks == [] then [] else [EventCall(callbacks[0], event)] + CallEach(callbacks[1..], event)
  }

  /** The calls one dispatch makes: `onabort` first when it hears the type, then the type's listeners in order. */
  function DispatchCalls<E>(t: EventType, onabort: Option<CallbackId>, listeners: seq<CallbackId>, event: E): (r: seq<EventCall<E>>)
    ensures |r| == |listeners| + (if HeardByOnAbort(t) && onabort.Some? then 1 else 0)
    ensures HeardByOnAbort(t) && onabort.Some? ==> r[0] == EventCall(onabort.value, event)
    ensures r[|r| - |listeners|..] == CallEach(listeners, event)
  {
    (if HeardByOnAbort(t) && onabort.Some? then [EventCall(onabort.value, event)] else []) + CallEach(listeners, event)
  }

  /** Events of another type never reach a listener; `onabort` never hears 'timeout'. */
  lemma DispatchReachesOnlyItsType<E>(t: EventType, onabort: Option<CallbackId>, listeners: seq<CallbackId>, event: E, cb: CallbackId)
    requires cb !in listeners && (onabort != Some(cb) || !HeardByOnAbort(t))
    ensures forall c :: c in DispatchCalls(t, onabort, listeners, event) ==> c.callback != cb
  {
    forall c | c in DispatchCalls(t, onabort, listeners, event) ensures c.callback != cb {
      var r := DispatchCalls(t, onabort, listeners, event);
      var k :| 0 <= k < |r| && r[k] == c;
      if !(HeardByOnAbort(t) && onabort.Some?) || k > 0 {
        var j := k - (|r| - |listeners|);
        assert r[|r| - |listeners|..][j] == c;
        assert listeners[j] == c.callback;
      }
    }
  }

  class EventListener {
    /** The listener set of each type that has been looked up. */
    var listeners: map<EventType, seq<CallbackId>>
    var onabort: Option<CallbackId>
    const state: StateObserver
    ghost var calls: seq<EventCall<Value>>

    ghost predicate Valid()
      reads this, state
    {
      (forall t :: t in listeners ==> NoDup(listeners[t])) && state.Valid()
    }

    /** The set of one type, empty when it has not been created yet. */
    function ListenersOf(t: EventType): seq<CallbackId>
      reads this
    {
      if t in listeners then listeners[t] else []
    }

    /** `new EventListener({ onAbort, onStateChange })`. */
    constructor(onAbort: Option<CallbackId>, onStateChange: Option<CallbackId>)
      ensures Valid() && fresh(state)
      ensures listeners == map[] && onabort == onAbort && calls == []
      ensures state.onstatechange == onStateChange && state.value == None && state.subscribers == [] && state.calls == []
    {
      listeners := map[];
      onabort := onAbort;
      state := new StateObserver(onStateChange);
      calls := [];
    }

    /** `addEventListener(type, listener)`: adds to the type's set (creating it) and returns the remover. */
    method AddEventListener(t: EventType, listener: CallbackId) returns (remove: Remover)
      requires Valid()
      modifies this
      ensures Valid()
      ensures listeners == old(listeners)[t := Insert(old(ListenersOf(t)), listener)]
      ensures remove == Remover(t, listener)
      ensures onabort == old(onabort) && calls == old(calls)
    {
      listeners := listeners[t := Insert(ListenersOf(t), listener)];
      remove := Remover(t, listener);
    }

    /** `removeEventListener(type, listener)`: deletes from the type's set (creating it if needed). */
    method RemoveEventListener(t: EventType, listener: CallbackId)
      requires Valid()
      modifies this
      ensures Valid()
      ensures listeners == old(listeners)[t := Delete(old(ListenersOf(t)), listener)]
      ensures onabort == old(onabort) && calls == old(calls)
    {
      listeners := listeners[t := Delete(ListenersOf(t), listener)];
    }

    /** Calling the function `addEventListener` returned. */
    method RunRemover(r: Remover)
      requires Valid()
      modifies this
      ensures Valid()
      ensures listeners == old(listeners)[r.eventType := Delete(old(ListenersOf(r.eventType)), r.callback)]
      ensures onabort == old(onabort) && calls == old(calls)
    {
      RemoveEventListener(r.eventType, r.callback);
    }

    /** `dispatchEvent(type, event)`. */
    method DispatchEvent(t: EventType, event: Value)
      requires Valid()
      modifies this
      ensures Valid()
      ensures calls == old(calls) + DispatchCalls(t, old(onabort), old(ListenersOf(t)), event)
      ensures listeners == old(listeners)[t := old(ListenersOf(t))]
      ensures forall e :: ListenersOf(e) == old(ListenersOf(e))
      ensures onabort == old(onabort)
    {
      var ls := ListenersOf(t);
      var made := CallListeners(ls, event);
      listeners := listeners[t := ls];
      if HeardByOnAbort(t) && onabort.Some? {
        assert DispatchCalls(t, onabort, ls, event) == [EventCall(onabort.value, event)] + made;
        calls := calls + ([EventCall(onabort.value, event)] + made);
      } else {
        assert DispatchCalls(t, onabort, ls, event) == made;
        calls := calls + made;
      }
    }

    /** The clear method: every listener set, `onabort` and the state observer's listeners and value. */
    method Clear()
      requires Valid()
      modifies this, state
      ensures Valid()
      ensures listeners == map[] && onabort == None && calls == old(calls)
      ensures state.value == None && state.onstatechange == None && state.subscribers == []
      ensures state.calls == old(state.calls)
    {
      listeners := map[];
      onabort := None;
      state.Clear();
    }
  }

  /** The `forEach` over a listener set: each listener called with the event, in order. */
  method CallListeners<E>(ls: seq<CallbackId>, event: E) returns (made: seq<EventCall<E>>)
    ensures made == CallEach(ls, event)
  {
    made := [];
    for i := 0 to |ls|
      invariant made == CallEach(ls[..i], event)
    {
      assert ls[..i + 1] == ls[..i] + [ls[i]];
      CallEachAppend(ls[..i], ls[i], event);
      made := made + [EventCall(ls[i], event)];
    }
    assert ls[..|ls|] == ls;
  }

  lemma {:induction false} CallEachAppend<E>(callbacks: seq<CallbackId>, cb: CallbackId, event: E)
    ensures CallEach(callbacks + [cb], event) == CallEach(callbacks, event) + [EventCall(cb, event)]
  {
    var r := CallEach(callbacks + [cb], event);
    assert r[|callbacks|] == EventCall(cb, event);
  }
}
