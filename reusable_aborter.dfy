/**
 * `ReusableAborter`: a controller whose signal is replaced after every
 * abort, with the listeners registered so far carried over to the new
 * signal.  Every signal it hands out has patched `addEventListener` /
 * `removeEventListener` methods that record the (non-once) registrations
 * in the aborter before forwarding to the platform's own methods, so a
 * caller still holding an old signal keeps adding to that old signal
 * while the aborter records the registration for the next one.
 */
module ReusableAborters {
  import opened Wrappers
  import opened Js
  import opened AbortErrors
  import opened Signals

  /** One recorded registration: `{ type, listener, options }`. */
  datatype Params = Params(eventType: string, listener: CallbackId, options: ListenerOptions)

  const LISTENER_NOT_A_FUNCTION: string := "listener is not a function"

  /** Only an options object with `once: true` is left unrecorded. */
  predicate Kept(options: ListenerOptions) {
    !OnceOf(options)
  }

  predicate NoOnce(recorded: seq<Params>) {
    forall i :: 0 <= i < |recorded| ==> Kept(recorded[i].options)
  }

  /**
   * The recorded-list filter of `removeEventListener` as the source writes
   * it: an entry stays only when BOTH its type and its listener differ, so
   * every entry of the same type, and every entry of the same listener,
   * is dropped.
   */
  function RemoveFilterAsWritten(recorded: seq<Params>, eventType: string, listener: CallbackId): (r: seq<Params>)
    ensures forall p :: p in r <==> p in recorded && p.eventType != eventType && p.listener != listener
    ensures |r| <= |recorded|
    ensures NoOnce(recorded) ==> NoOnce(r)
  {
    if recorded == [] then []
    else (if recorded[0].eventType != eventType && recorded[0].listener != listener then [recorded[0]] else [])
         + RemoveFilterAsWritten(recorded[1..], eventType, listener)
  }

  /** The filter the recovery needs: drops the entries of this type and this listener, and only those. */
  function RemoveRecorded(recorded: seq<Params>, eventType: string, listener: CallbackId): (r: seq<Params>)
    ensures forall p :: p in r <==> p in recorded && !(p.eventType == eventType && p.listener == listener)
    ensures |r| <= |recorded|
    ensures NoOnce(recorded) ==> NoOnce(r)
  {
    if recorded == [] then []
    else (if recorded[0].eventType == eventType && recorded[0].listener == listener then [] else [recorded[0]])
         + RemoveRecorded(recorded[1..], eventType, listener)
  }

  /** Two 'abort' listeners, the first removed: as written the second is forgotten as well, so the next signal would not get it. */
  lemma RemoveAsWrittenForgetsOtherListener()
    ensures var recorded := [Params("abort", 1, NoOptions), Params("abort", 2, NoOptions)];
            RemoveFilterAsWritten(recorded, "abort", 1) == []
            && RemoveRecorded(recorded, "abort", 1) == [Params("abort", 2, NoOptions)]
  {
    var recorded := [Params("abort", 1, NoOptions), Params("abort", 2, NoOptions)];
    assert recorded[1..] == [Params("abort", 2, NoOptions)];
    assert recorded[1..][1..] == [];
  }

  /** The two filters agree only on entries that share neither the type nor the listener, or share both. */
  lemma FiltersAgreeOn(p: Params, eventType: string, listener: CallbackId, recorded: seq<Params>)
    requires p in recorded
    ensures (p in RemoveFilterAsWritten(recorded, eventType, listener)) == (p in RemoveRecorded(recorded, eventType, listener))
            <==> (p.eventType == eventType) == (p.listener == listener)
  {
  }

  /** The listener list the recovery builds: every recorded entry re-added, in order, through the native `addEventListener`. */
  function Recovered(s: Signal, recorded: seq<Params>): (r: Signal)
    ensures r.aborted == s.aborted && r.reason == s.reason && r.onabort == s.onabort
    ensures DuplicateFree(s.listeners) ==> DuplicateFree(r.listeners)
  {
    if recorded == [] then s
    else
      var last := recorded[|recorded| - 1];
      AddListener(Recovered(s, recorded[..|recorded| - 1]), last.eventType, last.listener, last.options)
  }

  /** After recovery the new signal holds a listener for every recorded entry. */
  lemma {:induction false} RecoveredHoldsRecorded(s: Signal, recorded: seq<Params>, k: nat)
    requires k < |recorded|
    ensures var p := recorded[k];
            exists i :: 0 <= i < |Recovered(s, recorded).listeners|
                        && SameListener(Recovered(s, recorded).listeners[i], p.eventType, p.listener, CaptureOf(p.options))
  {
    var n := |recorded| - 1;
    var prev := Recovered(s, recorded[..n]);
    if k < n {
      RecoveredHoldsRecorded(s, recorded[..n], k);
      assert recorded[..n][k] == recorded[k];
      var p := recorded[k];
      var i :| 0 <= i < |prev.listeners| && SameListener(prev.listeners[i], p.eventType, p.listener, CaptureOf(p.options));
      var r := Recovered(s, recorded);
      assert r == AddListener(prev, recorded[n].eventType, recorded[n].listener, recorded[n].options);
      assert prev.listeners[i] == r.listeners[i];
    } else {
      assert Recovered(s, recorded) == AddListener(prev, recorded[n].eventType, recorded[n].listener, recorded[n].options);
    }
  }

  /** ... and nothing else: every listener of the new signal comes from a recorded entry, with its options. */
  lemma {:induction false} RecoveredOnlyRecorded(s: Signal, recorded: seq<Params>, x: Registration)
    requires x in Recovered(s, recorded).listeners
    ensures x in s.listeners
            || exists p :: p in recorded && x == Registration(p.eventType, p.listener, CaptureOf(p.options), OnceOf(p.options))
  {
    if recorded != [] {
      var n := |recorded| - 1;
      var last := recorded[n];
      var prev := Recovered(s, recorded[..n]);
      if x in prev.listeners {
        RecoveredOnlyRecorded(s, recorded[..n], x);
        if x !in s.listeners {
          var p :| p in recorded[..n] && x == Registration(p.eventType, p.listener, CaptureOf(p.options), OnceOf(p.options));
          assert p in recorded;
        }
      } else {
        assert x == Registration(last.eventType, last.listener, CaptureOf(last.options), OnceOf(last.options));
      }
    }
  }

  /** A recovered signal never holds a once-listener: once-listeners are not carried from one signal to the next. */
  lemma RecoveredHasNoOnce(onabort: Option<CallbackId>, recorded: seq<Params>)
    requires NoOnce(recorded)
    ensures forall x :: x in Recovered(FreshSignal.(onabort := onabort), recorded).listeners ==> !x.once
  {
    forall x | x in Recovered(FreshSignal.(onabort := onabort), recorded).listeners
      ensures !x.once
    {
      RecoveredOnlyRecorded(FreshSignal.(onabort := onabort), recorded, x);
      var p :| p in recorded && x == Registration(p.eventType, p.listener, CaptureOf(p.options), OnceOf(p.options));
      var k :| 0 <= k < |recorded| && recorded[k] == p;
    }
  }

  class ReusableAborter {
    /** The signal of every controller it has had; the last one is `abortController`. */
    var signals: seq<Signal>
    /** `originalSignalListenerParams`. */
    var recorded: seq<Params>

    ghost predicate Valid()
      reads this
    {
      |signals| >= 1 && NoOnce(recorded)
      && forall j :: 0 <= j < |signals| ==> DuplicateFree(signals[j].listeners)
    }

    /** A new reusable aborter: one fresh signal, nothing recorded. */
    constructor()
      ensures Valid()
      ensures signals == [FreshSignal] && recorded == []
    {
      signals := [FreshSignal];
      recorded := [];
    }

    /** The `signal` getter: the current controller's signal. */
    function Signal(): (r: Signal)
      reads this
      requires |signals| >= 1
      ensures r == signals[|signals| - 1]
    {
      signals[|signals| - 1]
    }

    /**
     * The patched `addEventListener`, called on the signal of controller
     * `at`: a non-function listener throws a `TypeError`; an options object
     * with `once` is only forwarded; anything else is recorded, then forwarded.
     */
    method AddEventListener(at: nat, eventType: string, listener: Value, options: ListenerOptions) returns (c: Completion)
      requires Valid() && at < |signals|
      modifies this
      ensures Valid()
      ensures !listener.Func? ==> c == Throw(Err(NewTypeError(LISTENER_NOT_A_FUNCTION))) && unchanged(this)
      ensures listener.Func? ==>
                c == Normal
                && signals == old(signals)[at := AddListener(old(signals)[at], eventType, listener.id, options)]
                && recorded == old(recorded) + (if Kept(options) then [Params(eventType, listener.id, options)] else [])
    {
      if !listener.Func? {
        return Throw(Err(NewTypeError(LISTENER_NOT_A_FUNCTION)));
      }
      if Kept(options) {
        recorded := recorded + [Params(eventType, listener.id, options)];
      }
      signals := signals[at := AddListener(signals[at], eventType, listener.id, options)];
      c := Normal;
    }

    /**
     * The patched `removeEventListener`, called on the signal of controller
     * `at`: a non-function listener throws a `TypeError`; otherwise the
     * recorded entries are filtered as the source writes it (see
     * `RemoveFilterAsWritten`) and the removal is forwarded.
     */
    method RemoveEventListener(at: nat, eventType: string, listener: Value, options: ListenerOptions) returns (c: Completion)
      requires Valid() && at < |signals|
      modifies this
      ensures Valid()
      ensures !listener.Func? ==> c == Throw(Err(NewTypeError(LISTENER_NOT_A_FUNCTION))) && unchanged(this)
      ensures listener.Func? ==>
                c == Normal
                && signals == old(signals)[at := RemoveListener(old(signals)[at], eventType, listener.id, options)]
                && recorded == RemoveFilterAsWritten(old(recorded), eventType, listener.id)
    {
      if !listener.Func? {
        return Throw(Err(NewTypeError(LISTENER_NOT_A_FUNCTION)));
      }
      recorded := RemoveFilterAsWritten(recorded, eventType, listener.id);
      signals := signals[at := RemoveListener(signals[at], eventType, listener.id, options)];
      c := Normal;
    }

    /** Assigning `onabort` on the signal of controller `at`. */
    method SetOnAbort(at: nat, handler: Option<CallbackId>)
      requires Valid() && at < |signals|
      modifies this
      ensures Valid()
      ensures signals == old(signals)[at := old(signals)[at].(onabort := handler)] && recorded == old(recorded)
    {
      signals := signals[at := signals[at].(onabort := handler)];
    }

    /**
     * `abort(reason)`: aborts the current signal, then installs a new
     * controller whose signal carries the old `onabort` and every recorded
     * listener; the recorded list itself is kept.
     */
    method Abort(reason: Value)
      requires Valid()
      modifies this
      ensures Valid()
      ensures |signals| == |old(signals)| + 1
      ensures signals[..|old(signals)|]
              == old(signals)[|old(signals)| - 1 := SignalAbort(old(Signal()), reason)]
      ensures Signal() == Recovered(FreshSignal.(onabort := old(Signal()).onabort), old(recorded))
      ensures !Signal().aborted && forall x :: x in Signal().listeners ==> !x.once
      ensures recorded == old(recorded)
    {
      var last := |signals| - 1;
      signals := signals[last := SignalAbort(signals[last], reason)];
      var next := FreshSignal.(onabort := signals[last].onabort);
      ghost var start := next;
      for i := 0 to |recorded|
        invariant next == Recovered(start, recorded[..i])
      {
        assert recorded[..i + 1][..i] == recorded[..i];
        next := AddListener(next, recorded[i].eventType, recorded[i].listener, recorded[i].options);
      }
      assert recorded[..|recorded|] == recorded;
      RecoveredHasNoOnce(start.onabort, recorded);
      signals := signals + [next];
    }
  }

  /**
   * The documented usage: a listener added, an abort, a second listener
   * added through the same (now stale) signal reference, a second abort.
   * The stale signal gets the second listener itself, and the signal after
   * the second abort carries both.
   */
  method DocumentedCycle() returns (stale: Signal, after: Signal)
    ensures stale.aborted && stale.listeners == [Registration("abort", 1, false, false), Registration("abort", 2, false, false)]
    ensures !after.aborted && after.listeners == [Registration("abort", 1, false, false), Registration("abort", 2, false, false)]
  {
    var a := FirstCycle();
    var c := a.AddEventListener(0, "abort", Func(2, "second"), NoOptions);
    assert !SameListener(a.signals[0].listeners[0], "abort", 2, false);
    a.Abort(Str("second"));
    TwoListenersRecovered(FreshSignal.(onabort := a.signals[1].onabort));
    stale := a.signals[0];
    after := a.Signal();
  }

  /**
   * Removing one of two 'abort' listeners: the signal it was called on keeps
   * the other, but the record loses both, so the next signal has none.
   */
  method RemoveForgetsOtherListener() returns (before: Signal, after: Signal)
    ensures before.listeners == [Registration("abort", 2, false, false)]
    ensures after.listeners == []
  {
    var a := FirstOfTwoRemoved();
    a.Abort(Undefined);
    before := a.signals[0];
    after := a.Signal();
  }

  /** With the corrected filter, the other listener would be carried to the next signal. */
  lemma CorrectedRemovalKeepsOtherListener(s: Signal)
    requires s.listeners == []
    ensures var recorded := [Params("abort", 1, NoOptions), Params("abort", 2, NoOptions)];
            Recovered(s, RemoveRecorded(recorded, "abort", 1)).listeners == [Registration("abort", 2, false, false)]
  {
    RemoveAsWrittenForgetsOtherListener();
    OneRecovered(s, Params("abort", 2, NoOptions));
  }

  /** Recovering a single recorded entry onto a signal without listeners registers just that entry. */
  lemma OneRecovered(s: Signal, p: Params)
    requires s.listeners == []
    ensures Recovered(s, [p]).listeners == [Registration(p.eventType, p.listener, CaptureOf(p.options), OnceOf(p.options))]
  {
    assert [p][..0] == [];
    assert Recovered(s, [p]) == AddListener(s, p.eventType, p.listener, p.options);
  }

  /** A once-listener stays on its own signal and is not carried to the next one. */
  method OnceListenerNotCarried() returns (before: Signal, after: Signal)
    ensures before.listeners == [Registration("abort", 1, false, true)]
    ensures after.listeners == []
  {
    var a := new ReusableAborter();
    var c := a.AddEventListener(0, "abort", Func(1, "once"), OptionsObject(false, true));
    a.Abort(Undefined);
    before := a.signals[0];
    after := a.Signal();
  }

  /** A new reusable aborter after adding two 'abort' listeners and removing the first. */
  method FirstOfTwoRemoved() returns (a: ReusableAborter)
    ensures fresh(a) && a.Valid() && |a.signals| == 1 && a.recorded == []
    ensures a.signals[0].listeners == [Registration("abort", 2, false, false)]
  {
    a := new ReusableAborter();
    var c := a.AddEventListener(0, "abort", Func(1, "first"), NoOptions);
    AddToEmpty(FreshSignal);
    AddSecondAbortListener(a.signals[0]);
    c := a.AddEventListener(0, "abort", Func(2, "second"), NoOptions);
    RemoveFirstOfTwo(a.signals[0]);
    c := a.RemoveEventListener(0, "abort", Func(1, "first"), NoOptions);
    RemoveAsWrittenForgetsOtherListener();
  }

  /** The native removal of listener 1 for 'abort' leaves listener 2. */
  lemma RemoveFirstOfTwo(s: Signal)
    requires s.listeners == [Registration("abort", 1, false, false), Registration("abort", 2, false, false)]
    ensures RemoveListener(s, "abort", 1, NoOptions).listeners == [Registration("abort", 2, false, false)]
  {
    var rs := s.listeners;
    assert rs[1..] == [rs[1]] && rs[1..][1..] == [];
    assert SameListener(rs[0], "abort", 1, false) && !SameListener(rs[1], "abort", 1, false);
    assert Without(rs[1..], "abort", 1, false) == [rs[1]];
  }

  /** Recovering the two recorded 'abort' listeners onto a signal without listeners adds both, in order. */
  lemma TwoListenersRecovered(s: Signal)
    requires s.listeners == []
    ensures Recovered(s, [Params("abort", 1, NoOptions), Params("abort", 2, NoOptions)]).listeners
            == [Registration("abort", 1, false, false), Registration("abort", 2, false, false)]
  {
    var recorded := [Params("abort", 1, NoOptions), Params("abort", 2, NoOptions)];
    assert recorded[..1] == [Params("abort", 1, NoOptions)];
    assert recorded[..1][..0] == [];
    assert Recovered(s, recorded[..1][..0]) == s;
    var first := Recovered(s, recorded[..1]);
    assert first == AddListener(s, "abort", 1, NoOptions);
    AddToEmpty(s);
    AddSecondAbortListener(first);
  }

  /** Adding listener 1 for 'abort' to a signal without listeners registers it. */
  lemma AddToEmpty(s: Signal)
    requires s.listeners == []
    ensures AddListener(s, "abort", 1, NoOptions).listeners == [Registration("abort", 1, false, false)]
  {
  }

  /** Adding listener 2 for 'abort' beside listener 1 appends it. */
  lemma AddSecondAbortListener(s: Signal)
    requires s.listeners == [Registration("abort", 1, false, false)]
    ensures AddListener(s, "abort", 2, NoOptions).listeners
            == [Registration("abort", 1, false, false), Registration("abort", 2, false, false)]
  {
    assert !SameListener(s.listeners[0], "abort", 2, false);
  }

  /** A new reusable aborter after one listener was added and the first abort. */
  method FirstCycle() returns (a: ReusableAborter)
    ensures fresh(a) && a.Valid() && |a.signals| == 2
    ensures a.signals[0].aborted && a.signals[0].listeners == [Registration("abort", 1, false, false)]
    ensures a.recorded == [Params("abort", 1, NoOptions)]
  {
    a := new ReusableAborter();
    var c := a.AddEventListener(0, "abort", Func(1, "first"), NoOptions);
    a.Abort(Str("first"));
  }
}
