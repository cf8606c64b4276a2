/**
 * The timer worker, shipped in the bundle as a minified string: two maps from
 * timer id to native timer handle (one for intervals, one for timeouts), the
 * drift-corrected delay computation `r`, the wake-up function `o` and the
 * `message` listener that serves `set` and `clear`.
 *
 * The worker's clock (`performance.now()`) is an integer parameter in
 * milliseconds. Its native timers are modelled explicitly: `armed` holds the
 * wake-ups that have been scheduled and neither run nor been cleared, under
 * the handle the native `setTimeout` returned for them.
 */
module Scheduler {
  import opened Messages

  type Handle = nat

  /** The result of `r`: when the timer is due, and how long to wait from now. */
  datatype Timing = Timing(expected: int, remainingDelay: int)

  /** A pending native timer that will call `o(map, timerId, expected, timerType)` after `delay`. */
  datatype Wakeup = Wakeup(timerId: int, timerType: string, expected: int, delay: int)

  /** What `o` does when it runs. */
  datatype WakeAction = PostCall | Rearm(delay: int)

  function Max(a: int, b: int): int
  {
    if a < b then b else a
  }

  /**
   * `r(delay, now)` run at worker time `clock`: the time already elapsed since
   * the call site's `now` (never counted as negative) is taken off the delay.
   */
  function ComputeTiming(delay: int, now: int, clock: int): (t: Timing)
    ensures clock >= now ==> t.expected == now + delay
    ensures clock >= now ==> t.remainingDelay == now + delay - clock
    ensures clock < now ==> t.expected == clock + delay && t.remainingDelay == delay
    ensures t.expected == clock + t.remainingDelay
  {
    var remainingDelay := delay - Max(0, clock - now);
    Timing(clock + remainingDelay, remainingDelay)
  }

  /** `o`'s decision at worker time `clock`: notify once strictly past `expected`, else wait out the rest. */
  function DecideWake(clock: int, expected: int): (a: WakeAction)
    ensures a.PostCall? <==> clock > expected
    ensures a.Rearm? ==> a.delay >= 0 && clock + a.delay == expected
  {
    if clock > expected then PostCall else Rearm(expected - clock)
  }

  /**
   * The worker never notifies before the deadline the call site asked for: a
   * timer set at worker time `setClock` (not earlier than the call site's
   * `now`) is notified at a later wake-up exactly when that wake-up is past
   * `now + delay`.
   */
  lemma NotifiedOnlyAfterDeadline(delay: int, now: int, setClock: int, wakeClock: int)
    requires setClock >= now
    ensures DecideWake(wakeClock, ComputeTiming(delay, now, setClock).expected).PostCall? <==> wakeClock > now + delay
  {
  }

  /**
   * A wake-up that re-arms is followed, at the time it asked for, by a
   * wake-up that sees the same anchor and re-arms with no delay: the wait
   * never overshoots the anchor, and the notification comes at the first
   * wake-up strictly after it.
   */
  lemma RearmLandsOnAnchor(clock: int, expected: int)
    requires DecideWake(clock, expected).Rearm?
    ensures DecideWake(clock + DecideWake(clock, expected).delay, expected) == Rearm(0)
    ensures DecideWake(clock + DecideWake(clock, expected).delay + 1, expected) == PostCall
  {
  }

  class WorkerScheduler {
    var intervals: map<int, Handle>     // e
    var timeouts: map<int, Handle>      // t
    var armed: map<Handle, Wakeup>      // native timers still to run
    var nextHandle: Handle              // the handle the next native setTimeout returns
    var outbox: seq<Reply>              // every message posted to the main context, in order

    /** Handles are fresh, and `o` is only ever armed for the two timer types. */
    ghost predicate Valid()
      reads this
    {
      (forall h | h in armed :: h < nextHandle) &&
      (forall h | h in armed :: armed[h].timerType == INTERVAL || armed[h].timerType == TIMEOUT)
    }

    function HandlesOf(timerType: string): map<int, Handle>
      reads this
    {
      if timerType == INTERVAL then intervals else timeouts
    }

    /** Every armed wake-up is the one its timer's map entry refers to. */
    ghost predicate Consistent()
      reads this
    {
      forall h | h in armed ::
        armed[h].timerId in HandlesOf(armed[h].timerType) && HandlesOf(armed[h].timerType)[armed[h].timerId] == h
    }

    /** No wake-up is armed for the timer. */
    ghost predicate Silent(timerId: int, timerType: string)
      reads this
    {
      forall h | h in armed :: !(armed[h].timerId == timerId && armed[h].timerType == timerType)
    }

    constructor ()
      ensures Valid() && Consistent()
      ensures intervals == map[] && timeouts == map[] && armed == map[] && outbox == []
      ensures nextHandle == 0
    {
      intervals := map[];
      timeouts := map[];
      armed := map[];
      nextHandle := 0;
      outbox := [];
    }

    /** The native `setTimeout(o, delay, map, timerId, expected, timerType)`, stored in the timer's map. */
    method Arm(timerId: int, timerType: string, expected: int, delay: int)
      requires Valid()
      requires timerType == INTERVAL || timerType == TIMEOUT
      modifies this
      ensures Valid()
      ensures armed == old(armed)[old(nextHandle) := Wakeup(timerId, timerType, expected, delay)]
      ensures old(nextHandle) !in old(armed) && nextHandle == old(nextHandle) + 1
      ensures intervals == if timerType == INTERVAL then old(intervals)[timerId := old(nextHandle)] else old(intervals)
      ensures timeouts == if timerType == INTERVAL then old(timeouts) else old(timeouts)[timerId := old(nextHandle)]
      ensures outbox == old(outbox)
      ensures old(Consistent()) && old(Silent(timerId, timerType)) ==> Consistent()
    {
      var handle := nextHandle;
      nextHandle := nextHandle + 1;
      armed := armed[handle := Wakeup(timerId, timerType, expected, delay)];
      if timerType == INTERVAL {
        intervals := intervals[timerId := handle];
      } else {
        timeouts := timeouts[timerId := handle];
      }
    }

    /** The native `clearTimeout` of the handle stored for a timer, and the deletion of its entry. */
    method Disarm(timerId: int, timerType: string)
      requires Valid()
      requires timerId in HandlesOf(timerType)
      modifies this
      ensures Valid()
      ensures armed == old(armed) - {old(HandlesOf(timerType))[timerId]}
      ensures intervals == if timerType == INTERVAL then old(intervals) - {timerId} else old(intervals)
      ensures timeouts == if timerType == INTERVAL then old(timeouts) else old(timeouts) - {timerId}
      ensures outbox == old(outbox) && nextHandle == old(nextHandle)
      ensures old(Consistent()) ==> Consistent() && Silent(timerId, timerType)
    {
      var handle := HandlesOf(timerType)[timerId];
      armed := armed - {handle};
      if timerType == INTERVAL {
        intervals := intervals - {timerId};
      } else {
        timeouts := timeouts - {timerId};
      }
    }

    /**
     * The `message` listener, run at worker time `clock`. Every error it
     * throws is answered with an error response carrying the request's id.
     */
    method HandleRequest(msg: Request, clock: int)
      requires Valid()
      // a supported `set` carries `delay` and `now`
      requires msg.methodName == SET && (msg.params.timerType == INTERVAL || msg.params.timerType == TIMEOUT) ==>
        msg.params.Schedule?
      modifies this
      ensures Valid()
      // clear of a scheduled timer: entry and wake-up gone, success response
      ensures (msg.methodName == CLEAR && (msg.params.timerType == INTERVAL || msg.params.timerType == TIMEOUT) &&
               msg.params.timerId in old(HandlesOf(msg.params.timerType))) ==>
        && armed == old(armed) - {old(HandlesOf(msg.params.timerType))[msg.params.timerId]}
        && HandlesOf(msg.params.timerType) == old(HandlesOf(msg.params.timerType)) - {msg.params.timerId}
        && outbox == old(outbox) + [Response(msg.id, NoError)]
        && (old(Consistent()) ==> Consistent() && Silent(msg.params.timerId, msg.params.timerType))
      // clear of an unknown timer: error response, nothing else changes
      ensures (msg.methodName == CLEAR && msg.params.timerType == INTERVAL && msg.params.timerId !in old(intervals)) ==>
        outbox == old(outbox) + [Response(msg.id, Error(NoIntervalScheduled(msg.params.timerId)))] &&
        armed == old(armed) && intervals == old(intervals) && timeouts == old(timeouts)
      ensures (msg.methodName == CLEAR && msg.params.timerType == TIMEOUT && msg.params.timerId !in old(timeouts)) ==>
        outbox == old(outbox) + [Response(msg.id, Error(NoTimeoutScheduled(msg.params.timerId)))] &&
        armed == old(armed) && intervals == old(intervals) && timeouts == old(timeouts)
      // set: one wake-up armed for the drift-corrected time, nothing posted
      ensures (msg.methodName == SET && (msg.params.timerType == INTERVAL || msg.params.timerType == TIMEOUT)) ==>
        var t := ComputeTiming(msg.params.delay, msg.params.now, clock);
        && armed == old(armed)[old(nextHandle) := Wakeup(msg.params.timerId, msg.params.timerType, t.expected, t.remainingDelay)]
        && old(nextHandle) !in old(armed) && nextHandle == old(nextHandle) + 1
        && HandlesOf(msg.params.timerType) == old(HandlesOf(msg.params.timerType))[msg.params.timerId := old(nextHandle)]
        && outbox == old(outbox)
        && (old(Consistent()) && old(Silent(msg.params.timerId, msg.params.timerType)) ==> Consistent())
      // unsupported timer type or method: error response, nothing else changes
      ensures ((msg.methodName == CLEAR || msg.methodName == SET) &&
               msg.params.timerType != INTERVAL && msg.params.timerType != TIMEOUT) ==>
        outbox == old(outbox) + [Response(msg.id, Error(UnsupportedTimerType(msg.params.timerType)))] &&
        armed == old(armed) && intervals == old(intervals) && timeouts == old(timeouts)
      ensures (msg.methodName != CLEAR && msg.methodName != SET) ==>
        outbox == old(outbox) + [Response(msg.id, Error(UnsupportedMethod(msg.methodName)))] &&
        armed == old(armed) && intervals == old(intervals) && timeouts == old(timeouts)
      // only a `set` consumes a handle
      ensures !(msg.methodName == SET && (msg.params.timerType == INTERVAL || msg.params.timerType == TIMEOUT)) ==>
        nextHandle == old(nextHandle)
      // the timer map not named by the message is left alone
      ensures msg.params.timerType != INTERVAL ==> intervals == old(intervals)
      ensures msg.params.timerType == INTERVAL ==> timeouts == old(timeouts)
    {
      var timerId, timerType := msg.params.timerId, msg.params.timerType;
      if msg.methodName == CLEAR {
        if timerType == INTERVAL {
          if timerId !in intervals {
            outbox := outbox + [Response(msg.id, Error(NoIntervalScheduled(timerId)))];
          } else {
            Disarm(timerId, INTERVAL);
            outbox := outbox + [Response(msg.id, NoError)];
          }
        } else if timerType == TIMEOUT {
          if timerId !in timeouts {
            outbox := outbox + [Response(msg.id, Error(NoTimeoutScheduled(timerId)))];
          } else {
            Disarm(timerId, TIMEOUT);
            outbox := outbox + [Response(msg.id, NoError)];
          }
        } else {
          outbox := outbox + [Response(msg.id, Error(UnsupportedTimerType(timerType)))];
        }
      } else if msg.methodName != SET {
        outbox := outbox + [Response(msg.id, Error(UnsupportedMethod(msg.methodName)))];
      } else if timerType == INTERVAL || timerType == TIMEOUT {
        var t := ComputeTiming(msg.params.delay, msg.params.now, clock);
        Arm(timerId, timerType, t.expected, t.remainingDelay);
      } else {
        outbox := outbox + [Response(msg.id, Error(UnsupportedTimerType(timerType)))];
      }
    }

    /**
     * `o`, run by the native timer `handle` at worker time `clock`: a `call`
     * notification once strictly past the expected time, otherwise a new wait
     * for the rest, keeping the same expected time. Entries are not removed
     * when a timer fires.
     */
    method Wake(handle: Handle, clock: int)
      requires Valid()
      requires handle in armed
      modifies this
      ensures Valid()
      ensures var w := old(armed)[handle];
        && (clock > w.expected ==>
              && outbox == old(outbox) + [CallNotification(w.timerId, w.timerType)]
              && armed == old(armed) - {handle}
              && intervals == old(intervals) && timeouts == old(timeouts)
              && nextHandle == old(nextHandle))
        && (clock <= w.expected ==>
              && outbox == old(outbox)
              && old(nextHandle) !in old(armed)
              && armed == (old(armed) - {handle})[old(nextHandle) := Wakeup(w.timerId, w.timerType, w.expected, w.expected - clock)]
              && HandlesOf(w.timerType) == old(HandlesOf(w.timerType))[w.timerId := old(nextHandle)]
              && (w.timerType == INTERVAL ==> timeouts == old(timeouts))
              && (w.timerType != INTERVAL ==> intervals == old(intervals))
              && nextHandle == old(nextHandle) + 1)
      ensures old(Consistent()) ==> Consistent()
    {
      var w := armed[handle];
      armed := armed - {handle};
      match DecideWake(clock, w.expected)
      case PostCall =>
        outbox := outbox + [CallNotification(w.timerId, w.timerType)];
      case Rearm(delay) =>
        Arm(w.timerId, w.timerType, w.expected, delay);
    }
  }

  /**
   * A timeout set for `delay` from `now` that the worker receives at `now`:
   * woken exactly at the deadline it waits again with no delay, and woken
   * after it, it posts one `call` notification.
   */
  method TimeoutNotifiedAfterDeadline(timerId: int, delay: int, now: int)
    returns (posted: seq<Reply>)
    ensures posted == [CallNotification(timerId, TIMEOUT)]
  {
    var worker := new WorkerScheduler();
    worker.HandleRequest(SetRequest(delay, now, timerId, TIMEOUT), now);
    assert worker.armed == map[0 := Wakeup(timerId, TIMEOUT, now + delay, delay)];
    worker.Wake(0, now + delay);
    assert worker.armed == map[1 := Wakeup(timerId, TIMEOUT, now + delay, 0)];
    worker.Wake(1, now + delay + 1);
    posted := worker.outbox;
  }

  /** A timer cleared before it is due leaves nothing armed, so it is never notified. */
  method ClearedBeforeDue(timerId: int, requestId: int, delay: int, now: int)
    returns (posted: seq<Reply>, pending: map<Handle, Wakeup>)
    ensures posted == [Response(Num(requestId), NoError)]
    ensures pending == map[]
  {
    var worker := new WorkerScheduler();
    worker.HandleRequest(SetRequest(delay, now, timerId, INTERVAL), now);
    worker.HandleRequest(ClearRequestMessage(requestId, timerId, INTERVAL), now);
    posted := worker.outbox;
    pending := worker.armed;
  }
}
