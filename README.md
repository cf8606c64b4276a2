# worker-timers, modelled in Dafny

This project models the core of `WorkerTimers.js`. The bundle moves `setTimeout` and `setInterval` into a Web Worker, so that timers keep firing when the page's own timers are throttled. It has three parts, each modelled in its own module:

- **UniqueNumbers** (`unique_numbers.dfy`) is the unique-number allocator, `createGenerateUniqueNumber` with its `createCache`. It returns a number that is not a key of a collection and records it as that collection's last number. The first guess is the collection's size, or the last number plus one, wrapping to 0 at 2^30. Failing that, it takes the first free random draw. The weak map from collection to last number is the field `lastNumbers` of the class `UniqueNumberGenerator`.
- **Broker** (`broker.dfy`) is the main-context registry that `load` returns, the class `TimerBroker`. It holds:
  - the interval and timeout slot maps, where each slot holds either a function or the number of a pending `clear` request;
  - the map of unanswered `clear` requests;
  - the worker message handler and the four operations `setTimeout`, `setInterval`, `clearTimeout` and `clearInterval`.

  Messages posted to the worker are appended to `outbox`. User callbacks are opaque ids appended to `invocations`.
- **Scheduler** (`scheduler.dfy`) is the worker, whose code the bundle carries as a minified string. It is the class `WorkerScheduler`, with:
  - its two maps from timer id to native timer handle;
  - the delay computation `r`, modelled as `ComputeTiming`;
  - the wake-up function `o`, modelled as `Wake` with its decision `DecideWake`;
  - the `set`/`clear` message listener, modelled as `HandleRequest`.

  The worker's native timers are the map `armed`. Its clock is an integer number of milliseconds passed to each operation.

`messages.dfy` holds the shapes of the messages in both directions. `wrappers.dfy` holds `Option`, `Result` and a map lookup.

The source calls a user callback synchronously in the middle of handling a fire notification. That callback may itself call the broker, for example to clear its own interval. The model therefore handles a fire notification in two calls:
- `HandleMessage` runs up to and including the callback, and returns a `Continuation`;
- `CompleteCallback` runs what the source does after the callback returns. For a timeout, that is deleting its slot, but only while the slot still holds the function, which corrects line 108 (see Findings). For an interval, it is re-posting `set` if the slot still holds a function.

Whatever the callback does happens between the two calls. A callback that throws ends the source's handler, which then skips both the timeout deletion at line 108 and the re-post at lines 160-171. The model expresses this by not calling `CompleteCallback` at all.

Some behaviours of the code that a reader might not expect, all modelled as the code has them:
- The worker clamps the elapsed time at 0, not the remaining delay. A remaining delay can therefore be negative and is passed to the native timer as it is.
- The worker posts `call` only when its clock is strictly past `expected`. At exactly `expected` it waits again with delay 0.
- The worker never re-arms an interval. After each callback, the main context posts a new `set` carrying a fresh `now`, so every period is measured from that re-post. There is no fixed baseline that advances by `delay`.
- The main context has no generation tokens and no request/response promises. A cleared timer's slot holds the number of its `clear` request until the response arrives, with two exceptions:
  - a timeout cleared inside its own callback, whose slot line 108 deletes at once (see Findings);
  - a timer cleared twice, whose slot holds the second request's number. The success response to the first request (lines 122-128) deletes the slot while the second request is still unanswered.
- `clearTimeout` and `clearInterval` always allocate a request and overwrite the slot, even for an id that was never set. For such an id the worker answers with an error, and the main context then throws that error.
- A timeout's function is called first, and its slot is deleted afterwards.
- The worker keeps a timer's map entry after the timer fires. Only `clear` removes an entry.
- A second `set` for a timer whose native timer is still armed overwrites the map entry without cancelling the first native timer, which stays armed. A later `clear` cancels only the handle stored last.

## Model

| member | source | states |
|---|---|---|
| UniqueNumbers.CheapCandidate | WorkerTimers.js:29 | With no last number the guess is the collection's size. With a known last number the guess is the last number plus one, or 0 once the last number reaches 2^30. A last number within [-1, 2^30] keeps the guess within the small integers [0, 2^30]. |
| UniqueNumbers.PickUniqueNumber | WorkerTimers.js:19-54 | The result is never a key of the collection. If the cheap guess (size, last + 1, or 0 at 2^30) is free, the result is that guess. Otherwise, below 2^29 keys the result is the first free value of `Math.floor(u * 2^30)` over the raw draws `u`, and so lies in [0, 2^30). From 2^29 keys on, it is the first free `Math.floor(u * MAX_SAFE_INTEGER)`, in [0, MAX_SAFE_INTEGER). The exhaustion error comes exactly when the guess is taken and the size reaches MAX_SAFE_INTEGER (the corrected guard of line 46). |
| UniqueNumbers.Scale | WorkerTimers.js:41 | `Math.floor(u * bound)` of a raw random value u in [0, 1) lies in [0, bound). |
| UniqueNumbers.DrawUntilFree | WorkerTimers.js:40-42 | Starting from an occupied guess, the draw loop returns the first value drawn below its bound that is not a key. That value lies below the bound. |
| UniqueNumbers.FreeValueBelow | WorkerTimers.js:33-39 | A collection with fewer than `bound` keys misses some number of [0, bound). This is why drawing in [0, 2^30) succeeds below 2^29 keys. |
| UniqueNumbers.CorrectedGuardLeavesFreeDraw | WorkerTimers.js:45-52 | Whenever the corrected exhaustion guard lets a collection through, a free value exists in the range the loop draws from. |
| UniqueNumbers.GuardExactWithinDrawRange | WorkerTimers.js:45-48 | For a collection whose keys all lie in [0, MAX_SAFE_INTEGER), the corrected guard throws exactly when every value of that range is a key. |
| UniqueNumbers.UsableDrawsExist | WorkerTimers.js:39-52 | For every collection, some sequence of random draws lets the allocator finish. Its precondition on the draws can always be met. |
| UniqueNumbers.AsWrittenGuardAdmitsFullCollection | WorkerTimers.js:45-52 | The guard as written lets through a collection of MAX_SAFE_INTEGER keys whose cheap guess is taken, although every `Math.floor(u * MAX_SAFE_INTEGER)` the loop can draw is already a key. |
| UniqueNumbers.RangeSize | WorkerTimers.js:50-52 | The draw range [0, n) has exactly n members. |
| UniqueNumbers.UniqueNumberGenerator.constructor | WorkerTimers.js:57 | `lastNumbers` starts empty: no collection has a last number. |
| UniqueNumbers.UniqueNumberGenerator.Cache | WorkerTimers.js:4-9 | Records the number as the collection's last number and returns it. No other collection's entry changes. |
| UniqueNumbers.UniqueNumberGenerator.Generate | WorkerTimers.js:18-59 | Returns a number that is not a key of the collection and records it as that collection's last number. Nothing is recorded on exhaustion, which happens exactly when the cheap guess is taken and the size reaches MAX_SAFE_INTEGER. A free cheap guess is returned as it is. Otherwise the result is the first free draw in the range for the collection's size. |
| Broker.IsCallNotification | WorkerTimers.js:61-63 | A message it accepts is a notification, which carries the timer id and type that line 77 reads. WorkerRepliesClassified shows that it accepts the worker's `call` notifications and none of its responses. |
| Broker.IsClearResponse | WorkerTimers.js:65-67 | No message is accepted by both recognisers. WorkerRepliesClassified shows that it accepts the worker's success responses to a numbered request and rejects its error responses and notifications. |
| Broker.DecideFire | WorkerTimers.js:79-112 | A fired timer's callback is called exactly when its slot exists and holds a function. The notification is ignored exactly when the slot holds a pending clear whose recorded request names this very timer and type. Every other case is the undefined state. FireOnConsistentSlots shows the undefined state cannot arise for an existing slot under the consistency invariant. |
| Broker.WorkerRepliesClassified | WorkerTimers.js:61-67 | The worker's `call` notifications are call notifications and not clear responses. Its success responses to a numbered request are clear responses. Its error responses are neither. |
| Broker.FireOnConsistentSlots | WorkerTimers.js:76-113 | When every pending-clear slot names a recorded request for that same timer, a notification for an occupied slot never reaches the undefined state. It calls the slot exactly when the slot holds a function, and is ignored exactly when a clear is pending. |
| Broker.TimerBroker.constructor | WorkerTimers.js:69-73 | Both slot maps start as {0: no-op}. There are no requests, no cached numbers and no messages. |
| Broker.TimerBroker.SetTimeout | WorkerTimers.js:185-199 | Returns an id not in the timeout map, stores the callback under it, posts exactly one `set` (id null, type "timeout") and caches the id. It throws, changing nothing, exactly when the allocator's guess is taken and the map has MAX_SAFE_INTEGER entries. A free cheap guess is taken as it is, which makes the first timeout of a fresh broker 1. Otherwise the id is the first free random draw. |
| Broker.TimerBroker.SetInterval | WorkerTimers.js:155-184 | Returns an id not in the interval map, stores the wrapper for the callback and delay under it, and posts exactly one `set` (id null, type "interval"). It throws, changing nothing, exactly when the guess is taken and the map is exhausted. The id is the free cheap guess, or else the first free draw. |
| Broker.TimerBroker.ClearTimeout | WorkerTimers.js:145-154 | Allocates a request id not in `unrespondedRequests` and records (timerId, "timeout") under it. Writes that id into the timer's slot, so the timer id stays taken, and posts one `clear` carrying the request id. It throws, changing nothing, exactly when the allocator's guess is taken and `unrespondedRequests` has MAX_SAFE_INTEGER entries. Otherwise the request id is the free cheap guess, or else the first free random draw. Keeps the consistency invariant. |
| Broker.TimerBroker.ClearInterval | WorkerTimers.js:135-144 | The same as ClearTimeout, for the interval map and the type "interval". |
| Broker.TimerBroker.HandleMessage | WorkerTimers.js:75-134 | A call notification calls the slot's callback only when the slot holds a function, and changes no map. A pending clear is ignored without throwing. A missing slot throws the undefined state. A clear response removes its request and that timer's slot and nothing else; an unknown request id throws. Any other message throws its error. |
| Broker.TimerBroker.CompleteCallback | WorkerTimers.js:155-172 | After the callback, an interval posts one new `set` only if its slot still holds a function. A timeout's slot is deleted only while it still holds the function, which corrects line 108: a pending clear made by the callback is never dropped, so the id stays taken until the clear response arrives. |
| Broker.TimerBroker.CompleteCallbackAsWritten | WorkerTimers.js:105-109 | After the callback, a timeout's slot is deleted whatever it holds. An interval behaves as in CompleteCallback. |
| Broker.FirstTimeoutIdIsOne | WorkerTimers.js:69-72 | On a fresh broker, the first `setTimeout` returns 1 and posts a single `set` for it. |
| Broker.TimeoutFiresOnce | WorkerTimers.js:95-113 | A timeout's callback runs once. Its slot is then gone, and a repeated notification throws the undefined state without calling anything. |
| Broker.ClearedIntervalNeverCalled | WorkerTimers.js:78-94 | An interval cleared before its notification arrives is never called and never re-posted. The clear response then frees its id. |
| Broker.IntervalReschedules | WorkerTimers.js:157-172 | A notification of a live interval calls it once and posts one new `set` carrying the new `now`. |
| Broker.ClearInsideCallbackStopsInterval | WorkerTimers.js:157-171 | Clearing an interval inside its own callback suppresses the next `set`. Only the `clear` is posted. |
| Broker.ClearOwnTimeoutAsWritten | WorkerTimers.js:105-128 | As written, a timeout that clears itself inside its callback loses its slot at once. A later `setTimeout` whose draw hits that id gets id 1 again. The late clear response then deletes the new callback, and the new timer's notification throws the undefined state, so the new callback never runs. |
| Broker.ClearOwnTimeoutKeepsId | WorkerTimers.js:105-128 | With the corrected completion, the same run refuses the draw of 1 and gives the new timer id 3. Its callback runs after the clear response for id 1. |
| Scheduler.ComputeTiming | WorkerTimers.js:224 | When the worker's clock is not behind the call site's `now`, `expected` is `now + delay` and the remaining delay ends exactly at `expected`. When the clock is behind, the full delay counts from the worker's clock. |
| Scheduler.DecideWake | WorkerTimers.js:224 | `o` notifies exactly when the clock is strictly past `expected`. Otherwise it waits a non-negative time that ends exactly at `expected`. |
| Scheduler.NotifiedOnlyAfterDeadline | WorkerTimers.js:224 | A timer set when the worker's clock is not behind `now` is notified at a wake-up exactly when that wake-up is past `now + delay`. |
| Scheduler.RearmLandsOnAnchor | WorkerTimers.js:224 | A re-armed wait ends on the anchor, where `o` waits again with delay 0. The next wake-up after the anchor notifies. |
| Scheduler.WorkerScheduler.constructor | WorkerTimers.js:224 | Both timer maps (`e` for intervals, `t` for timeouts) start empty, with no native timer armed and nothing posted. |
| Scheduler.WorkerScheduler.Arm | WorkerTimers.js:224 | Arms one native timer under a fresh handle and stores that handle in the timer type's map. Keeps consistency when the timer had no live wake-up. |
| Scheduler.WorkerScheduler.Disarm | WorkerTimers.js:224 | Cancels the stored handle and deletes the entry. On a consistent state (every armed wake-up is its timer's current entry), no wake-up is armed for that timer afterwards. |
| Scheduler.WorkerScheduler.HandleRequest | WorkerTimers.js:224 | A `set` arms one wake-up at the drift-corrected `expected` and posts nothing. A `clear` of a present id removes it and posts `{error: null, id}`. On a consistent state (every armed wake-up is its timer's current entry), no wake-up is left for that timer. A `clear` of an absent id posts an error response with the request id. An unsupported method or timer type posts an error response. Only a `set` consumes a native timer handle, and the map of the other timer type is never touched. |
| Scheduler.WorkerScheduler.Wake | WorkerTimers.js:224 | Posts one `call` notification (id null) exactly when the clock is past `expected`, leaving both maps and the handle counter unchanged. Otherwise it re-arms for `expected - clock` with the same `expected` under one fresh handle, re-pointing only the woken timer's entry and leaving the other type's map unchanged. Entries are never removed, and consistency is kept. |
| Scheduler.TimeoutNotifiedAfterDeadline | WorkerTimers.js:224 | A timeout woken exactly at its deadline waits again. Woken after the deadline, it posts one `call` notification. |
| Scheduler.ClearedBeforeDue | WorkerTimers.js:224 | A timer cleared before it is due leaves no armed wake-up, and the only message posted is the success response to the `clear`. |

## Findings

| source | as written | input that shows it | evidently intended | confidence | as-written member | corrected member |
|---|---|---|---|---|---|---|
| WorkerTimers.js:46 | throws only when `collection.size > MAX_SAFE_INTEGER` | a collection holding exactly the keys 0 .. MAX_SAFE_INTEGER-1 with last number 0: the guess 1 is taken, the guard does not throw, and every value `Math.floor(Math.random() * MAX_SAFE_INTEGER)` can give is a key, so the loop at lines 50-52 never ends | a quick size test that lets through only collections which still have a value to draw (the comment on line 45 asks whether there is a theoretical chance): `collection.size >= MAX_SAFE_INTEGER` | low in practice: no Map holds 2^53 entries; not executed | UniqueNumbers.AsWrittenGuardAdmitsFullCollection | UniqueNumbers.CorrectedGuardLeavesFreeDraw |
| WorkerTimers.js:108 | after a timeout's callback, its slot is deleted even when the callback has cleared that timeout and the clear is still unanswered | timeout 1 is set; id 2 is cleared before it was ever set; timeout 1 fires and its callback clears it; a new `setTimeout` finds its guess 2 taken and draws 1; the clear response for 1 then deletes the new callback (line 127), and its notification throws "The timer is in an undefined state." | delete the slot only while it still holds the function, as lines 159-160 do for intervals, so that the id stays taken until the clear response | low likelihood: a random draw must hit the freed id; not executed | Broker.ClearOwnTimeoutAsWritten | Broker.ClearOwnTimeoutKeepsId |

The allocator of this model (`PickUniqueNumber`, `Generate`) uses the corrected guard `Throws`. The rest of the broker model uses the corrected `CompleteCallback`. `CompleteCallbackAsWritten` is used only by `ClearOwnTimeoutAsWritten`.

## Left out

- `createLoadOrReturnBroker` (the Blob, object URL and `Worker` construction, the deferred `revokeObjectURL`) and the exported forwarders. They are bootstrap plumbing around the single memoised broker.
- The transport. Each incoming message is one call of `HandleMessage` or `HandleRequest`, and each `postMessage` is one append to an outbox. Delivery order between the two contexts is up to the caller.
- `Math.random()`. The random draws are a caller-supplied sequence of raw values in [0, 1), which the allocator scales by the bound each branch chooses. The precondition `DrawsUsable` asks that, unless the collection is exhausted, one draw gives a free number. This stands in for the loop ending with probability 1. `UsableDrawsExist` shows the precondition can always be met. The scaling uses exact reals, not IEEE doubles.
- PickUniqueNumber and Generate use the corrected guard `size >= MAX_SAFE_INTEGER`, not the source's `>` at line 46. Besides the collections on which the source loops forever, this also refuses a collection of exactly MAX_SAFE_INTEGER keys that has some key outside [0, MAX_SAFE_INTEGER), although the source would find a free value there. `GuardExactWithinDrawRange` shows that the corrected guard is exact when all keys lie in the draw range.
- CompleteCallback: the corrected step is proved never to drop a pending clear. The model does not connect the worker's replies to the broker's requests, so it does not prove, over all runs, that a timer id stays taken until its clear response arrives. When the same id is cleared twice, the first response frees the slot while the second request is still unanswered. The real worker answers that second request with an error, but the model leaves a worker's reply unconstrained.
- `performance.now()` and native timer delays are integer milliseconds, not floating point. The model does not constrain when the native timers run: `Wake` may be called for any armed handle at any clock. Browsers treat a negative delay as 0, and that is not modelled.
- The weak map's garbage collection. `lastNumbers` is an explicit map keyed by the three collections of the broker.
- Dynamic typing. Timer types and method names are strings, as in the source. A worker `set` whose type is supported must carry `delay` and `now`, because the source would compute with `undefined`. The `delay = 0` defaults are not modelled; callers pass a delay.
- Error texts. The worker's error messages are the datatype `Failure`, keeping each message's kind and argument. The `TypeError` from reading `error.message` of a message of neither shape is `MalformedMessage`. The `result: null` property of error responses is not kept.
- Features that this code does not have: `connect`, `disconnect` and `isSupported`; forwarding extra arguments to callbacks; generation tokens; worker-side re-arming of intervals.
