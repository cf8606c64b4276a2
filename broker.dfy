/**
 * The main-context timer broker returned by `load`: the registry of scheduled
 * interval and timeout functions, the unanswered `clear` requests, and the
 * handler of the worker's messages.
 *
 * Messages posted to the worker are appended to `outbox`; user callbacks are
 * opaque ids appended to `invocations` when they are called. Where the source
 * calls a user callback synchronously, the handling of a fire notification is
 * split in two: `HandleMessage` runs up to and including the call, and
 * `CompleteCallback` runs what the source does after the callback returns.
 * Between the two, the callback may call the broker's own operations.
 */
module Broker {
  import opened Wrappers
  import opened Messages
  import opened UniqueNumbers

  type CallbackId = nat

  /** The value stored for a timer id: a function, or the id of a pending clear request. */
  datatype Slot =
    | Noop                                          // the `() => { }` stored under id 0
    | TimeoutCallback(callback: CallbackId)         // the user's function of `setTimeout`
    | IntervalWrapper(callback: CallbackId, delay: int) // the closure `setInterval` stores around the user's function
    | PendingClear(requestId: int)                  // the number written by `clearInterval` / `clearTimeout`
  {
    predicate IsFunction()
    {
      !PendingClear?
    }
  }

  /** An entry of `unrespondedRequests`. */
  datatype ClearRequest = ClearRequest(timerId: int, timerType: string)

  /** The three collections whose numbers the broker allocates. */
  datatype Keyspace = IntervalIds | TimeoutIds | RequestIds

  /** What the broker throws. */
  datatype BrokerError =
    | UndefinedState          // 'The timer is in an undefined state.'
    | RemoteError(failure: Failure) // the message of an error response
    | MalformedMessage        // a message of neither shape: reading `error.message` fails
    | KeyspaceExhausted       // the allocator found no free number

  /** What remains to be done once a user callback has returned. */
  datatype Continuation =
    | Nothing
    | DeleteTimeout(timerId: int)
    | RescheduleInterval(timerId: int, delay: int)

  /** How a fire notification is treated, given the slot it finds. */
  datatype FireDecision = Invoke(slot: Slot) | Ignore | UndefinedTimer

  /** `isCallNotification` */
  predicate IsCallNotification(msg: Reply): (r: bool)
    // a call notification carries the timer id and type the handler reads
    ensures r ==> msg.Notification?
  {
    msg.Notification? && msg.methodName == CALL
  }

  /** `isClearResponse` */
  predicate IsClearResponse(msg: Reply): (r: bool)
    // the two recognisers never both accept a message
    ensures r ==> !IsCallNotification(msg)
  {
    msg.Response? && msg.error.NoError? && msg.id.Num?
  }

  /**
   * The worker's messages fall into the handler's three branches as intended:
   * its fire notifications are call notifications, its success responses to a
   * numbered request are clear responses, and its error responses are neither.
   */
  lemma WorkerRepliesClassified(timerId: int, timerType: string, id: int, requestId: Id, failure: Failure)
    ensures IsCallNotification(CallNotification(timerId, timerType))
    ensures !IsClearResponse(CallNotification(timerId, timerType))
    ensures IsClearResponse(Response(Num(id), NoError)) && !IsCallNotification(Response(Num(id), NoError))
    ensures !IsCallNotification(Response(requestId, Error(failure)))
    ensures !IsClearResponse(Response(requestId, Error(failure)))
  {
  }

  /** Every pending-clear slot of type `timerType` names a recorded request for that very timer. */
  predicate SlotsConsistent(slots: map<int, Slot>, requests: map<int, ClearRequest>, timerType: string)
  {
    forall id | id in slots && slots[id].PendingClear? ::
      slots[id].requestId in requests && requests[slots[id].requestId] == ClearRequest(id, timerType)
  }

  /** The checks the message handler makes on the slot of a fired timer. */
  function DecideFire(slot: Option<Slot>, requests: map<int, ClearRequest>, timerId: int, timerType: string): (d: FireDecision)
    ensures d.Invoke? <==> slot.Some? && slot.value.IsFunction()
    ensures d.Invoke? ==> d.slot == slot.value
    ensures d == Ignore <==>
      slot.Some? && slot.value.PendingClear? && slot.value.requestId in requests &&
      requests[slot.value.requestId] == ClearRequest(timerId, timerType)
  {
    match slot
    case None => UndefinedTimer
    case Some(PendingClear(requestId)) =>
      if requestId in requests && requests[requestId] == ClearRequest(timerId, timerType) then Ignore else UndefinedTimer
    case Some(s) => Invoke(s)
  }

  /**
   * On consistent state, a fire notification for an occupied slot never hits
   * the undefined state: it calls the stored function exactly when the slot
   * holds one, and is ignored exactly when a clear is pending.
   */
  lemma FireOnConsistentSlots(slots: map<int, Slot>, requests: map<int, ClearRequest>, timerId: int, timerType: string)
    requires SlotsConsistent(slots, requests, timerType)
    requires timerId in slots
    ensures DecideFire(Some(slots[timerId]), requests, timerId, timerType) != UndefinedTimer
    ensures DecideFire(Some(slots[timerId]), requests, timerId, timerType).Invoke? <==> slots[timerId].IsFunction()
    ensures DecideFire(Some(slots[timerId]), requests, timerId, timerType) == Ignore <==> slots[timerId].PendingClear?
  {
  }

  /** The user callbacks a stored function calls. */
  function Invoked(slot: Slot): seq<CallbackId>
  {
    match slot
    case TimeoutCallback(callback) => [callback]
    case IntervalWrapper(callback, _) => [callback]
    case _ => []
  }

  /** What the source does after the stored function of a fired timer has returned. */
  function After(slot: Slot, timerId: int, timerType: string): Continuation
  {
    if timerType == TIMEOUT then DeleteTimeout(timerId)
    else if slot.IntervalWrapper? then RescheduleInterval(timerId, slot.delay)
    else Nothing
  }

  class TimerBroker {
    var intervalSlots: map<int, Slot>           // scheduledIntervalFunctions
    var timeoutSlots: map<int, Slot>            // scheduledTimeoutFunctions
    var unrespondedRequests: map<int, ClearRequest>
    var outbox: seq<Request>                    // every message posted to the worker, in order
    var invocations: seq<CallbackId>            // every user callback called, in order
    const numbers: UniqueNumberGenerator<Keyspace>

    ghost predicate Valid()
      reads this
    {
      SlotsConsistent(intervalSlots, unrespondedRequests, INTERVAL) &&
      SlotsConsistent(timeoutSlots, unrespondedRequests, TIMEOUT)
    }

    function SlotsOf(timerType: string): map<int, Slot>
      reads this
    {
      if timerType == INTERVAL then intervalSlots else timeoutSlots
    }

    /** `load`: both slot maps start with id 0 taken by a no-op function. */
    constructor ()
      ensures Valid() && fresh(numbers)
      ensures intervalSlots == map[0 := Noop] && timeoutSlots == map[0 := Noop]
      ensures unrespondedRequests == map[] && numbers.lastNumbers == map[]
      ensures outbox == [] && invocations == []
    {
      intervalSlots := map[0 := Noop];
      timeoutSlots := map[0 := Noop];
      unrespondedRequests := map[];
      outbox := [];
      invocations := [];
      numbers := new UniqueNumberGenerator();
    }

    /** `setTimeout(func, delay)`, with `now` the value of `performance.now()`. */
    method SetTimeout(callback: CallbackId, delay: int, now: int, draws: seq<real>) returns (r: Result<int, BrokerError>)
      requires Valid()
      requires DrawsUsable(timeoutSlots.Keys, draws)
      modifies this, numbers
      ensures Valid()
      ensures r.Err? ==> r.error == KeyspaceExhausted
      ensures r.Err? ==> unchanged(this) && numbers.lastNumbers == old(numbers.lastNumbers)
      ensures r.Ok? ==>
        && r.value !in old(timeoutSlots)
        && timeoutSlots == old(timeoutSlots)[r.value := TimeoutCallback(callback)]
        && outbox == old(outbox) + [SetRequest(delay, now, r.value, TIMEOUT)]
        && numbers.lastNumbers == old(numbers.lastNumbers)[TimeoutIds := r.value]
      ensures intervalSlots == old(intervalSlots) && unrespondedRequests == old(unrespondedRequests)
      ensures invocations == old(invocations)
      ensures var guess := CheapCandidate(|old(timeoutSlots)|, old(numbers.LastNumber(TimeoutIds)));
        && (r.Err? <==> guess in old(timeoutSlots) && Throws(|old(timeoutSlots)|))
        && (guess !in old(timeoutSlots) ==> r == Ok(guess))
        && (guess in old(timeoutSlots) && r.Ok? ==>
              IsFirstFreeDraw(old(timeoutSlots).Keys, draws, DrawBound(|old(timeoutSlots)|), r.value))
    {
      var a := numbers.Generate(TimeoutIds, timeoutSlots.Keys, draws);
      if a.Exhausted? {
        return Err(KeyspaceExhausted);
      }
      var timerId := a.number;
      timeoutSlots := timeoutSlots[timerId := TimeoutCallback(callback)];
      outbox := outbox + [SetRequest(delay, now, timerId, TIMEOUT)];
      return Ok(timerId);
    }

    /** `setInterval(func, delay)`, with `now` the value of `performance.now()`. */
    method SetInterval(callback: CallbackId, delay: int, now: int, draws: seq<real>) returns (r: Result<int, BrokerError>)
      requires Valid()
      requires DrawsUsable(intervalSlots.Keys, draws)
      modifies this, numbers
      ensures Valid()
      ensures r.Err? ==> r.error == KeyspaceExhausted
      ensures r.Err? ==> unchanged(this) && numbers.lastNumbers == old(numbers.lastNumbers)
      ensures r.Ok? ==>
        && r.value !in old(intervalSlots)
        && intervalSlots == old(intervalSlots)[r.value := IntervalWrapper(callback, delay)]
        && outbox == old(outbox) + [SetRequest(delay, now, r.value, INTERVAL)]
        && numbers.lastNumbers == old(numbers.lastNumbers)[IntervalIds := r.value]
      ensures timeoutSlots == old(timeoutSlots) && unrespondedRequests == old(unrespondedRequests)
      ensures invocations == old(invocations)
      ensures var guess := CheapCandidate(|old(intervalSlots)|, old(numbers.LastNumber(IntervalIds)));
        && (r.Err? <==> guess in old(intervalSlots) && Throws(|old(intervalSlots)|))
        && (guess !in old(intervalSlots) ==> r == Ok(guess))
        && (guess in old(intervalSlots) && r.Ok? ==>
              IsFirstFreeDraw(old(intervalSlots).Keys, draws, DrawBound(|old(intervalSlots)|), r.value))
    {
      var a := numbers.Generate(IntervalIds, intervalSlots.Keys, draws);
      if a.Exhausted? {
        return Err(KeyspaceExhausted);
      }
      var timerId := a.number;
      intervalSlots := intervalSlots[timerId := IntervalWrapper(callback, delay)];
      outbox := outbox + [SetRequest(delay, now, timerId, INTERVAL)];
      return Ok(timerId);
    }

    /**
     * `clearTimeout(timerId)`. The result carries the request id posted with
     * the `clear` message (the source returns nothing).
     */
    method ClearTimeout(timerId: int, draws: seq<real>) returns (r: Result<int, BrokerError>)
      requires Valid()
      requires DrawsUsable(unrespondedRequests.Keys, draws)
      modifies this, numbers
      ensures Valid()
      ensures r.Err? ==> r.error == KeyspaceExhausted
      ensures r.Err? ==> unchanged(this) && numbers.lastNumbers == old(numbers.lastNumbers)
      ensures r.Ok? ==>
        && r.value !in old(unrespondedRequests)
        && unrespondedRequests == old(unrespondedRequests)[r.value := ClearRequest(timerId, TIMEOUT)]
        && timeoutSlots == old(timeoutSlots)[timerId := PendingClear(r.value)]
        && outbox == old(outbox) + [ClearRequestMessage(r.value, timerId, TIMEOUT)]
        && numbers.lastNumbers == old(numbers.lastNumbers)[RequestIds := r.value]
      ensures intervalSlots == old(intervalSlots) && invocations == old(invocations)
      ensures var guess := CheapCandidate(|old(unrespondedRequests)|, old(numbers.LastNumber(RequestIds)));
        && (r.Err? <==> guess in old(unrespondedRequests) && Throws(|old(unrespondedRequests)|))
        && (guess !in old(unrespondedRequests) ==> r == Ok(guess))
        && (guess in old(unrespondedRequests) && r.Ok? ==>
              IsFirstFreeDraw(old(unrespondedRequests).Keys, draws, DrawBound(|old(unrespondedRequests)|), r.value))
    {
      var a := numbers.Generate(RequestIds, unrespondedRequests.Keys, draws);
      if a.Exhausted? {
        return Err(KeyspaceExhausted);
      }
      var id := a.number;
      unrespondedRequests := unrespondedRequests[id := ClearRequest(timerId, TIMEOUT)];
      timeoutSlots := timeoutSlots[timerId := PendingClear(id)];
      outbox := outbox + [ClearRequestMessage(id, timerId, TIMEOUT)];
      return Ok(id);
    }

    /**
     * `clearInterval(timerId)`. The result carries the request id posted with
     * the `clear` message (the source returns nothing).
     */
    method ClearInterval(timerId: int, draws: seq<real>) returns (r: Result<int, BrokerError>)
      requires Valid()
      requires DrawsUsable(unrespondedRequests.Keys, draws)
      modifies this, numbers
      ensures Valid()
      ensures r.Err? ==> r.error == KeyspaceExhausted
      ensures r.Err? ==> unchanged(this) && numbers.lastNumbers == old(numbers.lastNumbers)
      ensures r.Ok? ==>
        && r.value !in old(unrespondedRequests)
        && unrespondedRequests == old(unrespondedRequests)[r.value := ClearRequest(timerId, INTERVAL)]
        && intervalSlots == old(intervalSlots)[timerId := PendingClear(r.value)]
        && outbox == old(outbox) + [ClearRequestMessage(r.value, timerId, INTERVAL)]
        && numbers.lastNumbers == old(numbers.lastNumbers)[RequestIds := r.value]
      ensures timeoutSlots == old(timeoutSlots) && invocations == old(invocations)
      ensures var guess := CheapCandidate(|old(unrespondedRequests)|, old(numbers.LastNumber(RequestIds)));
        && (r.Err? <==> guess in old(unrespondedRequests) && Throws(|old(unrespondedRequests)|))
        && (guess !in old(unrespondedRequests) ==> r == Ok(guess))
        && (guess in old(unrespondedRequests) && r.Ok? ==>
              IsFirstFreeDraw(old(unrespondedRequests).Keys, draws, DrawBound(|old(unrespondedRequests)|), r.value))
    {
      var a := numbers.Generate(RequestIds, unrespondedRequests.Keys, draws);
      if a.Exhausted? {
        return Err(KeyspaceExhausted);
      }
      var id := a.number;
      unrespondedRequests := unrespondedRequests[id := ClearRequest(timerId, INTERVAL)];
      intervalSlots := intervalSlots[timerId := PendingClear(id)];
      outbox := outbox + [ClearRequestMessage(id, timerId, INTERVAL)];
      return Ok(id);
    }

    /**
     * The `message` listener. For a fire notification whose slot holds a
     * function, the function has been called when this returns, and the
     * result says what `CompleteCallback` must do once it has returned.
     */
    method HandleMessage(msg: Reply) returns (r: Result<Continuation, BrokerError>)
      requires Valid()
      modifies this
      ensures Valid()
      // fire notifications change neither the maps nor the outbox
      ensures IsCallNotification(msg) ==>
        && intervalSlots == old(intervalSlots) && timeoutSlots == old(timeoutSlots)
        && unrespondedRequests == old(unrespondedRequests) && outbox == old(outbox)
      ensures IsCallNotification(msg) && (msg.timerType == INTERVAL || msg.timerType == TIMEOUT) ==>
        var d := DecideFire(Lookup(old(SlotsOf(msg.timerType)), msg.timerId), old(unrespondedRequests), msg.timerId, msg.timerType);
        && (d == UndefinedTimer ==> r == Err(UndefinedState) && invocations == old(invocations))
        && (d == Ignore ==> r == Ok(Nothing) && invocations == old(invocations))
        && (d.Invoke? ==> r == Ok(After(d.slot, msg.timerId, msg.timerType)) && invocations == old(invocations) + Invoked(d.slot))
      // a timer whose clear is pending is never called, and nothing is thrown
      ensures (IsCallNotification(msg) && (msg.timerType == INTERVAL || msg.timerType == TIMEOUT) &&
               msg.timerId in old(SlotsOf(msg.timerType)) && old(SlotsOf(msg.timerType))[msg.timerId].PendingClear?) ==>
          r == Ok(Nothing) && unchanged(this)
      // a timer without a slot is in an undefined state
      ensures (IsCallNotification(msg) && (msg.timerType == INTERVAL || msg.timerType == TIMEOUT) &&
               msg.timerId !in old(SlotsOf(msg.timerType))) ==>
          r == Err(UndefinedState) && unchanged(this)
      ensures IsCallNotification(msg) && msg.timerType != INTERVAL && msg.timerType != TIMEOUT ==>
        r == Ok(Nothing) && unchanged(this)
      // a clear response removes the request and the timer's slot, nothing else
      ensures IsClearResponse(msg) && msg.id.n !in old(unrespondedRequests) ==>
        r == Err(UndefinedState) && unchanged(this)
      ensures IsClearResponse(msg) && msg.id.n in old(unrespondedRequests) ==>
        var request := old(unrespondedRequests)[msg.id.n];
        && r == Ok(Nothing)
        && unrespondedRequests == old(unrespondedRequests) - {msg.id.n}
        && intervalSlots == (if request.timerType == INTERVAL then old(intervalSlots) - {request.timerId} else old(intervalSlots))
        && timeoutSlots == (if request.timerType == INTERVAL then old(timeoutSlots) else old(timeoutSlots) - {request.timerId})
        && outbox == old(outbox) && invocations == old(invocations)
      // anything else is thrown
      ensures !IsCallNotification(msg) && !IsClearResponse(msg) ==>
        && unchanged(this)
        && r == Err(if msg.Response? && msg.error.Error? then RemoteError(msg.error.failure) else MalformedMessage)
    {
      if IsCallNotification(msg) {
        var timerId, timerType := msg.timerId, msg.timerType;
        if timerType == INTERVAL || timerType == TIMEOUT {
          var slots := SlotsOf(timerType);
          if timerId in slots {
            FireOnConsistentSlots(slots, unrespondedRequests, timerId, timerType);
          }
          var d := DecideFire(Lookup(slots, timerId), unrespondedRequests, timerId, timerType);
          match d
          case UndefinedTimer =>
            return Err(UndefinedState);
          case Ignore =>
            return Ok(Nothing);
          case Invoke(slot) =>
            invocations := invocations + Invoked(slot);
            return Ok(After(slot, timerId, timerType));
        }
        return Ok(Nothing);
      } else if IsClearResponse(msg) {
        var id := msg.id.n;
        if id !in unrespondedRequests {
          return Err(UndefinedState);
        }
        var request := unrespondedRequests[id];
        unrespondedRequests := unrespondedRequests - {id};
        if request.timerType == INTERVAL {
          intervalSlots := intervalSlots - {request.timerId};
        } else {
          timeoutSlots := timeoutSlots - {request.timerId};
        }
        return Ok(Nothing);
      } else if msg.Response? && msg.error.Error? {
        return Err(RemoteError(msg.error.failure));
      } else {
        return Err(MalformedMessage);
      }
    }

    /**
     * What follows the user callback: a fired timeout's slot is deleted unless
     * the callback has cleared it, in which case the slot keeps the pending
     * clear so that the id stays taken until the clear response arrives; a
     * fired interval is scheduled again only if its slot still holds a
     * function, so a clear made inside the callback stops it.
     */
    method CompleteCallback(k: Continuation, now: int)
      requires Valid()
      modifies this
      ensures Valid()
      ensures intervalSlots == old(intervalSlots) && unrespondedRequests == old(unrespondedRequests)
      ensures invocations == old(invocations)
      ensures timeoutSlots ==
        if k.DeleteTimeout? && k.timerId in old(timeoutSlots) && old(timeoutSlots)[k.timerId].IsFunction()
        then old(timeoutSlots) - {k.timerId}
        else old(timeoutSlots)
      // a pending clear is never dropped here
      ensures forall id :: id in old(timeoutSlots) && old(timeoutSlots)[id].PendingClear? ==>
        id in timeoutSlots && timeoutSlots[id] == old(timeoutSlots)[id]
      ensures outbox ==
        if k.RescheduleInterval? && k.timerId in old(intervalSlots) && old(intervalSlots)[k.timerId].IsFunction()
        then old(outbox) + [SetRequest(k.delay, now, k.timerId, INTERVAL)]
        else old(outbox)
    {
      match k
      case Nothing =>
      case DeleteTimeout(timerId) =>
        if timerId in timeoutSlots && timeoutSlots[timerId].IsFunction() {
          timeoutSlots := timeoutSlots - {timerId};
        }
      case RescheduleInterval(timerId, delay) =>
        if timerId in intervalSlots && intervalSlots[timerId].IsFunction() {
          outbox := outbox + [SetRequest(delay, now, timerId, INTERVAL)];
        }
    }

    /**
     * The same step as the source writes it: a fired timeout's slot is
     * deleted whatever it holds, also when the callback has just cleared it
     * and the clear request is still unanswered.
     */
    method CompleteCallbackAsWritten(k: Continuation, now: int)
      requires Valid()
      modifies this
      ensures Valid()
      ensures intervalSlots == old(intervalSlots) && unrespondedRequests == old(unrespondedRequests)
      ensures invocations == old(invocations)
      ensures timeoutSlots == if k.DeleteTimeout? then old(timeoutSlots) - {k.timerId} else old(timeoutSlots)
      ensures outbox ==
        if k.RescheduleInterval? && k.timerId in old(intervalSlots) && old(intervalSlots)[k.timerId].IsFunction()
        then old(outbox) + [SetRequest(k.delay, now, k.timerId, INTERVAL)]
        else old(outbox)
    {
      match k
      case Nothing =>
      case DeleteTimeout(timerId) =>
        timeoutSlots := timeoutSlots - {timerId};
      case RescheduleInterval(timerId, delay) =>
        if timerId in intervalSlots && intervalSlots[timerId].IsFunction() {
          outbox := outbox + [SetRequest(delay, now, timerId, INTERVAL)];
        }
    }
  }

  /**
   * One raw random value, never needed in the scenarios below whose cheap
   * guesses are free: it draws 5.
   */
  function SpareDraws(): (draws: seq<real>)
    ensures DrawsInRange(draws) && |draws| == 1
    ensures Scale(draws[0], TWO_TO_THE_POWER_OF_THIRTY) == 5
  {
    [DrawOf(5, TWO_TO_THE_POWER_OF_THIRTY)]
  }

  /** A fresh broker hands out timeout id 1, because id 0 is taken from the start. */
  method FirstTimeoutIdIsOne(callback: CallbackId, delay: int, now: int) returns (timerId: int, posted: seq<Request>)
    ensures timerId == 1
    ensures posted == [SetRequest(delay, now, 1, TIMEOUT)]
  {
    var broker := new TimerBroker();
    FewKeysUsable(broker.timeoutSlots.Keys, 1, SpareDraws(), 0);
    var r := broker.SetTimeout(callback, delay, now, SpareDraws());
    timerId := r.value;
    posted := broker.outbox;
  }

  /**
   * A timeout fires exactly once: its callback is called, its slot is deleted,
   * and a repeated notification finds the timer in an undefined state.
   */
  method TimeoutFiresOnce(callback: CallbackId, delay: int, now: int, later: int)
    returns (called: seq<CallbackId>, second: Result<Continuation, BrokerError>, timeouts: map<int, Slot>)
    ensures called == [callback]
    ensures second == Err(UndefinedState)
    ensures timeouts == map[0 := Noop]
  {
    var broker := new TimerBroker();
    FewKeysUsable(broker.timeoutSlots.Keys, 1, SpareDraws(), 0);
    var r := broker.SetTimeout(callback, delay, now, SpareDraws());
    var k := broker.HandleMessage(CallNotification(1, TIMEOUT));
    broker.CompleteCallback(k.value, later);
    second := broker.HandleMessage(CallNotification(1, TIMEOUT));
    called := broker.invocations;
    timeouts := broker.timeoutSlots;
  }

  /**
   * The opening of the scenario below: on a fresh broker, interval 1 is set
   * and then cleared with request 0.
   */
  method SetAndClearInterval(broker: TimerBroker, callback: CallbackId, delay: int, now: int)
    requires broker.Valid()
    requires broker.intervalSlots == map[0 := Noop]
    requires broker.unrespondedRequests == map[] && broker.outbox == [] && broker.invocations == []
    requires broker.numbers.lastNumbers == map[]
    modifies broker, broker.numbers
    ensures broker.Valid()
    ensures broker.intervalSlots == map[0 := Noop, 1 := PendingClear(0)]
    ensures broker.unrespondedRequests == map[0 := ClearRequest(1, INTERVAL)]
    ensures broker.outbox == [SetRequest(delay, now, 1, INTERVAL), ClearRequestMessage(0, 1, INTERVAL)]
    ensures broker.invocations == []
  {
    FewKeysUsable(broker.intervalSlots.Keys, 1, SpareDraws(), 0);
    var r := broker.SetInterval(callback, delay, now, SpareDraws());
    assert r == Ok(1);
    FewKeysUsable(broker.unrespondedRequests.Keys, 0, SpareDraws(), 0);
    var c := broker.ClearInterval(1, SpareDraws());
    assert c == Ok(0);
  }

  /**
   * An interval cleared before its first notification arrives is never called
   * and never scheduled again; the clear response then frees its id.
   */
  method ClearedIntervalNeverCalled(callback: CallbackId, delay: int, now: int)
    returns (called: seq<CallbackId>, posted: seq<Request>, intervals: map<int, Slot>)
    ensures called == []
    ensures posted == [SetRequest(delay, now, 1, INTERVAL), ClearRequestMessage(0, 1, INTERVAL)]
    ensures intervals == map[0 := Noop]
  {
    var broker := new TimerBroker();
    SetAndClearInterval(broker, callback, delay, now);
    var k := broker.HandleMessage(CallNotification(1, INTERVAL));
    assert k == Ok(Nothing);
    broker.CompleteCallback(k.value, now);
    var done := broker.HandleMessage(Response(Num(0), NoError));
    assert broker.intervalSlots == map[0 := Noop, 1 := PendingClear(0)] - {1};
    called := broker.invocations;
    posted := broker.outbox;
    intervals := broker.intervalSlots;
  }

  /** Each notification of a live interval calls it and posts one new `set`. */
  method IntervalReschedules(callback: CallbackId, delay: int, now: int, later: int)
    returns (called: seq<CallbackId>, posted: seq<Request>)
    ensures called == [callback]
    ensures posted == [SetRequest(delay, now, 1, INTERVAL), SetRequest(delay, later, 1, INTERVAL)]
  {
    var broker := new TimerBroker();
    FewKeysUsable(broker.intervalSlots.Keys, 1, SpareDraws(), 0);
    var r := broker.SetInterval(callback, delay, now, SpareDraws());
    var k := broker.HandleMessage(CallNotification(1, INTERVAL));
    broker.CompleteCallback(k.value, later);
    called := broker.invocations;
    posted := broker.outbox;
  }

  /** Clearing an interval inside its own callback suppresses the next `set`. */
  method ClearInsideCallbackStopsInterval(callback: CallbackId, delay: int, now: int, later: int)
    returns (called: seq<CallbackId>, posted: seq<Request>)
    ensures called == [callback]
    ensures posted == [SetRequest(delay, now, 1, INTERVAL), ClearRequestMessage(0, 1, INTERVAL)]
  {
    var broker := new TimerBroker();
    FewKeysUsable(broker.intervalSlots.Keys, 1, SpareDraws(), 0);
    var r := broker.SetInterval(callback, delay, now, SpareDraws());
    var k := broker.HandleMessage(CallNotification(1, INTERVAL));
    FewKeysUsable(broker.unrespondedRequests.Keys, 0, SpareDraws(), 0);
    var c := broker.ClearInterval(1, SpareDraws());   // made by the callback
    broker.CompleteCallback(k.value, later);
    called := broker.invocations;
    posted := broker.outbox;
  }

  /**
   * The opening shared by the two scenarios below: timeout 1 is set, id 2 is
   * cleared before it was ever set (so slot 2 holds pending clear 0), timeout 1
   * fires, and its callback clears timeout 1 (request 1).
   */
  method ClearOwnTimeoutInCallback(broker: TimerBroker, cb1: CallbackId, delay: int, now: int)
    returns (k: Continuation)
    requires broker.Valid()
    requires broker.timeoutSlots == map[0 := Noop]
    requires broker.unrespondedRequests == map[] && broker.invocations == []
    requires broker.numbers.lastNumbers == map[]
    modifies broker, broker.numbers
    ensures broker.Valid()
    ensures k == DeleteTimeout(1)
    ensures broker.timeoutSlots == map[0 := Noop, 1 := PendingClear(1), 2 := PendingClear(0)]
    ensures broker.unrespondedRequests == map[0 := ClearRequest(2, TIMEOUT), 1 := ClearRequest(1, TIMEOUT)]
    ensures broker.invocations == [cb1]
    ensures broker.numbers.LastNumber(TimeoutIds) == Some(1)
  {
    FewKeysUsable(broker.timeoutSlots.Keys, 1, SpareDraws(), 0);
    var r1 := broker.SetTimeout(cb1, delay, now, SpareDraws());
    assert r1 == Ok(1);
    FewKeysUsable(broker.unrespondedRequests.Keys, 0, SpareDraws(), 0);
    var c2 := broker.ClearTimeout(2, SpareDraws());
    assert c2 == Ok(0);
    assert broker.timeoutSlots == map[0 := Noop, 1 := TimeoutCallback(cb1), 2 := PendingClear(0)];
    var fired := broker.HandleMessage(CallNotification(1, TIMEOUT));
    assert fired == Ok(DeleteTimeout(1));
    k := fired.value;
    FewKeysUsable(broker.unrespondedRequests.Keys, 1, SpareDraws(), 0);
    var c1 := broker.ClearTimeout(1, SpareDraws());   // made by the callback
    assert c1 == Ok(1);
  }

  /**
   * As the source is written, a timeout that clears itself inside its own
   * callback loses its slot before the clear response arrives. A later
   * `setTimeout` whose random draw hits that id reuses it, the late clear
   * response deletes the new timer's callback, and the new timer's
   * notification finds it in an undefined state: the new callback never runs.
   */
  method ClearOwnTimeoutAsWritten(cb1: CallbackId, cb2: CallbackId, delay: int, now: int, later: int)
    returns (reused: int, called: seq<CallbackId>, last: Result<Continuation, BrokerError>)
    ensures reused == 1
    ensures called == [cb1]
    ensures last == Err(UndefinedState)
  {
    var broker := new TimerBroker();
    var k := ClearOwnTimeoutInCallback(broker, cb1, delay, now);
    broker.CompleteCallbackAsWritten(k, later);
    assert broker.timeoutSlots == map[0 := Noop, 2 := PendingClear(0)];
    var draws := [DrawOf(1, TWO_TO_THE_POWER_OF_THIRTY)];
    FewKeysUsable(broker.timeoutSlots.Keys, 3, draws, 0);
    var r2 := broker.SetTimeout(cb2, delay, later, draws);
    assert r2 == Ok(1);
    var response := broker.HandleMessage(Response(Num(1), NoError));
    assert 1 !in broker.timeoutSlots;
    last := broker.HandleMessage(CallNotification(1, TIMEOUT));
    reused := r2.value;
    called := broker.invocations;
  }

  /**
   * With the corrected completion, the same run keeps id 1 taken until its
   * clear response: the draw of 1 is refused, the new timer gets the next
   * draw, 3, and its callback runs.
   */
  method ClearOwnTimeoutKeepsId(cb1: CallbackId, cb2: CallbackId, delay: int, now: int, later: int)
    returns (second: int, called: seq<CallbackId>, last: Result<Continuation, BrokerError>)
    ensures second == 3
    ensures called == [cb1, cb2]
    ensures last == Ok(DeleteTimeout(3))
  {
    var broker := new TimerBroker();
    var k := ClearOwnTimeoutInCallback(broker, cb1, delay, now);
    broker.CompleteCallback(k, later);
    assert broker.timeoutSlots == map[0 := Noop, 1 := PendingClear(1), 2 := PendingClear(0)];
    var draws := [DrawOf(1, TWO_TO_THE_POWER_OF_THIRTY), DrawOf(3, TWO_TO_THE_POWER_OF_THIRTY)];
    FewKeysUsable(broker.timeoutSlots.Keys, 3, draws, 1);
    var r2 := broker.SetTimeout(cb2, delay, later, draws);
    assert r2 == Ok(3);
    var response := broker.HandleMessage(Response(Num(1), NoError));
    assert broker.timeoutSlots == map[0 := Noop, 2 := PendingClear(0), 3 := TimeoutCallback(cb2)];
    last := broker.HandleMessage(CallNotification(3, TIMEOUT));
    second := r2.value;
    called := broker.invocations;
  }
}
