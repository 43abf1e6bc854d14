/**
 * `Timeout`: the coordinator's single request timer.  The platform's timer
 * queue is part of the object's state (`pending`) so that firing can be
 * modelled; `Elapse` is the platform running the timer.
 */
module Timers {
  import opened Wrappers

  /** A timer the platform holds: its handle, its callback and its delay. */
  datatype Scheduled<C> = Scheduled(handle: nat, callback: C, delay: real)

  /** `!timeout || timeout <= 0`: undefined, zero and negative delays arm nothing. */
  predicate Arms(timeout: Option<real>) {
    timeout.Some? && timeout.value > 0.0
  }

  class Timeout<C> {
    /** The handle of the last timer armed and not cleared (`timeoutId`). */
    var timeoutId: Option<nat>
    /** The platform's queue entry, if a timer is still to fire. */
    var pending: Option<Scheduled<C>>
    /** The platform's next timer handle; handles are positive. */
    var nextHandle: nat

    /**
     * At most one timer is pending and its handle is `timeoutId`; a fired
     * timer leaves its handle behind (the source does not reset it).
     */
    ghost predicate Valid()
      reads this
    {
      nextHandle >= 1
      && (timeoutId.Some? ==> 1 <= timeoutId.value < nextHandle)
      && (pending.Some? ==> timeoutId == Some(pending.value.handle))
    }

    constructor()
      ensures Valid() && timeoutId == None && pending == None
    {
      timeoutId := None;
      pending := None;
      nextHandle := 1;
    }

    /** `clearTimeout()`: cancels the pending timer, if any, and forgets the handle. */
    method ClearTimeout()
      requires Valid()
      modifies this
      ensures Valid()
      ensures timeoutId == None && pending == None
      ensures nextHandle == old(nextHandle)
    {
      if timeoutId.Some? {
        // the platform's clearTimeout(timeoutId) removes the entry with that handle
        if pending.Some? && pending.value.handle == timeoutId.value {
          pending := None;
        }
        timeoutId := None;
      }
    }

    /** `setTimeout(timeout, onAbort)`: clears the previous timer, then arms a new one for positive delays only. */
    method SetTimeout(timeout: Option<real>, onAbort: C)
      requires Valid()
      modifies this
      ensures Valid()
      ensures Arms(timeout) ==>
                pending == Some(Scheduled(old(nextHandle), onAbort, timeout.value))
                && timeoutId == Some(old(nextHandle)) && nextHandle == old(nextHandle) + 1
      ensures !Arms(timeout) ==> pending == None && timeoutId == None && nextHandle == old(nextHandle)
    {
      ClearTimeout();
      if !Arms(timeout) {
        return;
      }
      timeoutId := Some(nextHandle);
      pending := Some(Scheduled(nextHandle, onAbort, timeout.value));
      nextHandle := nextHandle + 1;
    }

    /** The platform runs the pending timer: its callback is returned to be run, and `timeoutId` keeps the spent handle. */
    method Elapse() returns (fired: Option<C>)
      requires Valid()
      modifies this
      ensures Valid()
      ensures fired == (if old(pending).Some? then Some(old(pending).value.callback) else None)
      ensures pending == None && timeoutId == old(timeoutId) && nextHandle == old(nextHandle)
    {
      if pending.Some? {
        fired := Some(pending.value.callback);
        pending := None;
      } else {
        fired := None;
      }
    }
  }
}
