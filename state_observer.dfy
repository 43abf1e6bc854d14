/**
 * `StateObserver`: the current request state, an `onstatechange` handler
 * and a set of subscribers, all notified on every emit.  Callbacks are
 * identities; each call is recorded in the ghost `calls` trace.
 */
module StateObservers {
  import opened Wrappers
  import opened Js
  import opened OrderedSets

  /** `RequestState`: 'pending' | 'fulfilled' | 'rejected' | 'cancelled' | 'aborted'. */
  datatype RequestState = Pending | Fulfilled | Rejected | CancelledState | AbortedState

  /** One invocation of a state callback with the state it received. */
  datatype StateCall = StateCall(callback: CallbackId, state: RequestState)

  /** The function `subscribe` returns: calling it unsubscribes `callback`. */
  datatype Unsubscriber = Unsubscriber(callback: CallbackId)

  /** The calls one emit makes: each subscriber in order, then the handler. */
  function Deliveries(subscribers: seq<CallbackId>, handler: Option<CallbackId>, state: RequestState): (r: seq<StateCall>)
    ensures |r| == |subscribers| + (if handler.Some? then 1 else 0)
    ensures forall i :: 0 <= i < |subscribers| ==> r[i] == StateCall(subscribers[i], state)
    ensures handler.Some? ==> r[|r| - 1] == StateCall(handler.value, state)
  {
    Notify(subscribers, state) + (if handler.Some? then [StateCall(handler.value, state)] else [])
  }

  function Notify(subscribers: seq<CallbackId>, state: RequestState): (r: seq<StateCall>)
    ensures |r| == |subscribers|
    ensures forall i :: 0 <= i < |subscribers| ==> r[i] == StateCall(subscribers[i], state)
  {
    if subscribers == [] then [] else [StateCall(subscribers[0], state)] + Notify(subscribers[1..], state)
  }

  /** Every subscriber hears an emit exactly once, and nobody else does. */
  lemma {:induction false} NotifiedOnce(subscribers: seq<CallbackId>, state: RequestState, cb: CallbackId)
    requires NoDup(subscribers)
    ensures multiset(Notify(subscribers, state))[StateCall(cb, state)] == if cb in subscribers then 1 else 0
  {
    if subscribers != [] {
      NotifiedOnce(subscribers[1..], state, cb);
      assert subscribers == [subscribers[0]] + subscribers[1..];
      assert Notify(subscribers, state) == [StateCall(subscribers[0], state)] + Notify(subscribers[1..], state);
      assert subscribers[0] !in subscribers[1..];
    }
  }

  class StateObserver {
    /** The state of the last emit. */
    var value: Option<RequestState>
    var onstatechange: Option<CallbackId>
    var subscribers: seq<CallbackId>
    ghost var calls: seq<StateCall>

    ghost predicate Valid()
      reads this
    {
      NoDup(subscribers)
    }

    constructor(onStateChange: Option<CallbackId>)
      ensures Valid()
      ensures value == None && onstatechange == onStateChange && subscribers == [] && calls == []
    {
      value := None;
      onstatechange := onStateChange;
      subscribers := [];
      calls := [];
    }

    /** `subscribe(callback)`: adds the callback once and returns its unsubscriber. */
    method Subscribe(callback: CallbackId) returns (unsubscribe: Unsubscriber)
      requires Valid()
      modifies this
      ensures Valid()
      ensures subscribers == Insert(old(subscribers), callback)
      ensures unsubscribe == Unsubscriber(callback)
      ensures value == old(value) && onstatechange == old(onstatechange) && calls == old(calls)
    {
      subscribers := Insert(subscribers, callback);
      unsubscribe := Unsubscriber(callback);
    }

    /** `unsubscribe(callback)`. */
    method Unsubscribe(callback: CallbackId)
      requires Valid()
      modifies this
      ensures Valid()
      ensures subscribers == Delete(old(subscribers), callback)
      ensures value == old(value) && onstatechange == old(onstatechange) && calls == old(calls)
    {
      subscribers := Delete(subscribers, callback);
    }

    /** Calling the function `subscribe` returned. */
    method RunUnsubscriber(u: Unsubscriber)
      requires Valid()
      modifies this
      ensures Valid()
      ensures subscribers == Delete(old(subscribers), u.callback)
      ensures value == old(value) && onstatechange == old(onstatechange) && calls == old(calls)
    {
      Unsubscribe(u.callback);
    }

    /**
     * `emit(state)`: records the state, calls every subscriber in
     * insertion order, then `onstatechange`, when no subscriber changes
     * the subscriber set while it is called (see `EmitWithSelfUnsubscribe`).
     */
    method Emit(state: RequestState)
      requires Valid()
      modifies this
      ensures Valid()
      ensures value == Some(state)
      ensures calls == old(calls) + Deliveries(subscribers, onstatechange, state)
      ensures subscribers == old(subscribers) && onstatechange == old(onstatechange)
    {
      value := Some(state);
      var made := NotifySubscribers(subscribers, state);
      if onstatechange.Some? {
        calls := calls + (made + [StateCall(onstatechange.value, state)]);
      } else {
        calls := calls + made;
      }
    }

    /**
     * `emit(state)` during which the subscriber at position `k` unsubscribes
     * itself when it is called.  A `Set` being iterated still visits every
     * element not yet reached, and only the element just visited is gone,
     * so every subscriber present at the start is called once, in order;
     * afterwards that one is no longer subscribed.
     */
    method EmitWithSelfUnsubscribe(state: RequestState, k: nat)
      requires Valid() && k < |subscribers|
      modifies this
      ensures Valid()
      ensures value == Some(state)
      ensures calls == old(calls) + Deliveries(old(subscribers), onstatechange, state)
      ensures subscribers == Delete(old(subscribers), old(subscribers)[k]) && onstatechange == old(onstatechange)
    {
      value := Some(state);
      var visiting := subscribers;
      ghost var remaining := Delete(visiting, visiting[k]);
      var made := [];
      for i := 0 to |visiting|
        invariant made == Notify(visiting[..i], state)
        invariant i <= k ==> subscribers == visiting
        invariant i > k ==> subscribers == remaining
        invariant value == Some(state) && onstatechange == old(onstatechange) && calls == old(calls)
      {
        assert visiting[..i + 1] == visiting[..i] + [visiting[i]];
        NotifyAppend(visiting[..i], visiting[i], state);
        made := made + [StateCall(visiting[i], state)];
        if i == k {
          subscribers := Delete(subscribers, visiting[k]);
        }
      }
      assert visiting[..|visiting|] == visiting;
      if onstatechange.Some? {
        calls := calls + (made + [StateCall(onstatechange.value, state)]);
      } else {
        calls := calls + made;
      }
    }

    /** The clear method: drops every listener and the stored state. */
    method Clear()
      requires Valid()
      modifies this
      ensures Valid()
      ensures value == None && onstatechange == None && subscribers == [] && calls == old(calls)
    {
      value := None;
      onstatechange := None;
      subscribers := [];
    }
  }

  lemma {:induction false} NotifyAppend(subscribers: seq<CallbackId>, cb: CallbackId, state: RequestState)
    ensures Notify(subscribers + [cb], state) == Notify(subscribers, state) + [StateCall(cb, state)]
  {
    var r := Notify(subscribers + [cb], state);
    assert |r| == |subscribers| + 1;
    assert r[|subscribers|] == StateCall(cb, state);
  }

  /** A subscriber that unsubscribed itself hears no later emit. */
  lemma SelfUnsubscribedNotNotifiedAgain(subscribers: seq<CallbackId>, k: nat, state: RequestState)
    requires NoDup(subscribers) && k < |subscribers|
    ensures StateCall(subscribers[k], state) !in Notify(Delete(subscribers, subscribers[k]), state)
  {
    NotifiedOnce(Delete(subscribers, subscribers[k]), state, subscribers[k]);
  }

  /** The `forEach` over the subscribers: each one called with the state, in insertion order. */
  method NotifySubscribers(subscribers: seq<CallbackId>, state: RequestState) returns (made: seq<StateCall>)
    ensures made == Notify(subscribers, state)
  {
    made := [];
    for i := 0 to |subscribers|
      invariant made == Notify(subscribers[..i], state)
    {
      assert subscribers[..i + 1] == subscribers[..i] + [subscribers[i]];
      NotifyAppend(subscribers[..i], subscribers[i], state);
      made := made + [StateCall(subscribers[i], state)];
    }
    assert subscribers[..|subscribers|] == subscribers;
  }
}
