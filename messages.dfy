/**
 * The messages exchanged between the main context and the timer worker.
 * Property names of the JavaScript objects are kept; the `method` property
 * is called `methodName` because `method` is a Dafny keyword.
 */
module Messages {

  const INTERVAL: string := "interval"
  const TIMEOUT: string := "timeout"
  const SET: string := "set"
  const CLEAR: string := "clear"
  const CALL: string := "call"

  /** The `id` property: `null` for notifications, otherwise a number. */
  datatype Id = Null | Num(n: int)

  /** The `params` property of a request. */
  datatype Params =
    | TimerRef(timerId: int, timerType: string)                           // { timerId, timerType }
    | Schedule(delay: int, now: int, timerId: int, timerType: string)     // { delay, now, timerId, timerType }

  /** A message posted by the main context to the worker. */
  datatype Request = Request(id: Id, methodName: string, params: Params)

  /** The reasons the worker reports in an error response (the text of its `Error`s). */
  datatype Failure =
    | NoIntervalScheduled(timerId: int)       // There is no interval scheduled with the given id "…".
    | NoTimeoutScheduled(timerId: int)        // There is no timeout scheduled with the given id "…".
    | UnsupportedTimerType(timerType: string) // The given type "…" is not supported
    | UnsupportedMethod(name: string)         // The given method "…" is not supported

  /** The `error` property of a response: `null` or `{ message }`. */
  datatype ErrorField = NoError | Error(failure: Failure)

  /** A message posted by the worker to the main context. */
  datatype Reply =
    | Notification(id: Id, methodName: string, timerId: int, timerType: string) // { id, method, params: { timerId, timerType } }
    | Response(id: Id, error: ErrorField)                                      // { error, id }

  /** The `set` message the main context posts for a timer. */
  function SetRequest(delay: int, now: int, timerId: int, timerType: string): Request
  {
    Request(Null, SET, Schedule(delay, now, timerId, timerType))
  }

  /** The `clear` message the main context posts, correlated by the request id `id`. */
  function ClearRequestMessage(id: int, timerId: int, timerType: string): Request
  {
    Request(Num(id), CLEAR, TimerRef(timerId, timerType))
  }

  /** The notification the worker posts when a timer is due. */
  function CallNotification(timerId: int, timerType: string): Reply
  {
    Notification(Null, CALL, timerId, timerType)
  }
}
