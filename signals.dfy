/**
 * The platform's `AbortController` / `AbortSignal` pair, as the library
 * uses it: a signal records whether it is aborted and why, its `onabort`
 * handler and its event listener list (section 3.1 and 3.2 of the WHATWG
 * DOM Standard).  A controller is identified with its signal.
 */
module Signals {
  import opened Wrappers
  import opened Js
  import opened AbortErrors

  /** The third argument of `addEventListener` / `removeEventListener`. */
  datatype ListenerOptions =
    | NoOptions
    | CaptureFlag(capture: bool)
    | OptionsObject(capture: bool, once: bool)

  /** An entry of a signal's event listener list. */
  datatype Registration = Registration(eventType: string, callback: CallbackId, capture: bool, once: bool)

  datatype Signal = Signal(aborted: bool, reason: Value, onabort: Option<CallbackId>, listeners: seq<Registration>)

  /** The signal of `new AbortController()`. */
  const FreshSignal: Signal := Signal(false, Undefined, None, [])

  function CaptureOf(options: ListenerOptions): bool {
    match options
    case NoOptions => false
    case CaptureFlag(c) => c
    case OptionsObject(c, _) => c
  }

  function OnceOf(options: ListenerOptions): bool {
    options.OptionsObject? && options.once
  }

  predicate SameListener(r: Registration, eventType: string, callback: CallbackId, capture: bool) {
    r.eventType == eventType && r.callback == callback && r.capture == capture
  }

  /** A listener list holds each (type, callback, capture) at most once. */
  predicate DuplicateFree(rs: seq<Registration>) {
    forall i, j :: 0 <= i < j < |rs| ==> !SameListener(rs[j], rs[i].eventType, rs[i].callback, rs[i].capture)
  }

  /**
   * `controller.abort(reason)`: a signal aborts once; a later abort changes
   * nothing.  An undefined reason becomes the default `DOMException`.
   * Running the abort algorithms and firing the `abort` event are not part
   * of this model.
   */
  function SignalAbort(s: Signal, reason: Value): (r: Signal)
    ensures r.aborted
    ensures s.aborted ==> r == s
    ensures !s.aborted ==> r.reason == (if reason == Undefined then DefaultAbortReason else reason)
    ensures r.reason != Undefined || s.aborted
    ensures r.onabort == s.onabort && r.listeners == s.listeners
  {
    if s.aborted then s
    else s.(aborted := true, reason := if reason == Undefined then DefaultAbortReason else reason)
  }

  /** The native `addEventListener`: appends unless an equal listener is already there. */
  function AddListener(s: Signal, eventType: string, callback: CallbackId, options: ListenerOptions): (r: Signal)
    ensures r.aborted == s.aborted && r.reason == s.reason && r.onabort == s.onabort
    ensures DuplicateFree(s.listeners) ==> DuplicateFree(r.listeners)
    ensures exists i :: 0 <= i < |r.listeners| && SameListener(r.listeners[i], eventType, callback, CaptureOf(options))
    ensures (exists i :: 0 <= i < |s.listeners| && SameListener(s.listeners[i], eventType, callback, CaptureOf(options)))
            ==> r == s
    ensures !(exists i :: 0 <= i < |s.listeners| && SameListener(s.listeners[i], eventType, callback, CaptureOf(options)))
            ==> r.listeners == s.listeners + [Registration(eventType, callback, CaptureOf(options), OnceOf(options))]
  {
    var capture := CaptureOf(options);
    if exists i :: 0 <= i < |s.listeners| && SameListener(s.listeners[i], eventType, callback, capture) then s
    else
      var r := s.(listeners := s.listeners + [Registration(eventType, callback, capture, OnceOf(options))]);
      assert SameListener(r.listeners[|s.listeners|], eventType, callback, capture);
      r
  }

  /** The native `removeEventListener`: drops the entry with the same type, callback and capture. */
  function RemoveListener(s: Signal, eventType: string, callback: CallbackId, options: ListenerOptions): (r: Signal)
    ensures r.aborted == s.aborted && r.reason == s.reason && r.onabort == s.onabort
    ensures forall x :: x in r.listeners <==> x in s.listeners && !SameListener(x, eventType, callback, CaptureOf(options))
    ensures DuplicateFree(s.listeners) ==> DuplicateFree(r.listeners)
  {
    WithoutDuplicateFree(s.listeners, eventType, callback, CaptureOf(options));
    s.(listeners := Without(s.listeners, eventType, callback, CaptureOf(options)))
  }

  function Without(rs: seq<Registration>, eventType: string, callback: CallbackId, capture: bool): (r: seq<Registration>)
    ensures forall x :: x in r <==> x in rs && !SameListener(x, eventType, callback, capture)
    ensures |r| <= |rs|
  {
    if rs == [] then []
    else (if SameListener(rs[0], eventType, callback, capture) then [] else [rs[0]])
         + Without(rs[1..], eventType, callback, capture)
  }

  /** Removing entries keeps a duplicate-free list duplicate-free. */
  lemma {:induction false} WithoutDuplicateFree(rs: seq<Registration>, eventType: string, callback: CallbackId, capture: bool)
    ensures DuplicateFree(rs) ==> DuplicateFree(Without(rs, eventType, callback, capture))
  {
    if rs != [] && DuplicateFree(rs) {
      var tail := rs[1..];
      assert DuplicateFree(tail) by {
        forall i, j | 0 <= i < j < |tail|
          ensures !SameListener(tail[j], tail[i].eventType, tail[i].callback, tail[i].capture)
        {
          assert tail[i] == rs[i + 1] && tail[j] == rs[j + 1];
        }
      }
      WithoutDuplicateFree(tail, eventType, callback, capture);
      var rest := Without(tail, eventType, callback, capture);
      var r := Without(rs, eventType, callback, capture);
      if !SameListener(rs[0], eventType, callback, capture) {
        assert r == [rs[0]] + rest;
        forall i, j | 0 <= i < j < |r|
          ensures !SameListener(r[j], r[i].eventType, r[i].callback, r[i].capture)
        {
          if i == 0 {
            assert r[j] == rest[j - 1] && r[j] in tail;
            var k :| 0 <= k < |tail| && tail[k] == r[j];
            assert rs[k + 1] == r[j];
          } else {
            assert r[i] == rest[i - 1] && r[j] == rest[j - 1];
          }
        }
      }
    }
  }
}
