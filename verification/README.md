# App-slave provisioner: bounded wait and slave deployment, in Dafny

This project models the core of the purpleteam-lambda app-slave provisioner
(`local/app-slave-provisioner/index.js`), a serverless function. It asks a
docker-compose-ui endpoint to start between 1 and 12 "app slave" containers and
returns the caller's items, each named after its container. It has two parts:

- `promiseAllTimeout` waits for N already-running promises or for a timer,
  whichever comes first. It is written with a positional `results` array, a
  `finished` counter and a one-shot `onFinish` callback that is set to null after
  its first full run. Module `PromiseAllTimeout` models it as an event-driven
  state machine. The events are: promise i fulfilled with v, some promise
  rejected, and the timer fired. They may come in any order. Each promise
  fulfils at most once and the timer fires at most once; these are the
  preconditions of the events.
  - `State`/`Step` is the reference definition.
  - `Run` applies a sequence of events.
  - Class `Aggregate` holds the closure's variables. Its methods `OnSuccess`,
    `OnFailure` and `OnTimer` are proved to perform exactly one `Step` each.
  - The outer promise is `Outcome`: `Pending`, `TimerThrew`, `Resolved(values)`
    or `Rejected(error)`. `TimerThrew` means the timer callback threw because
    partial resolution is off. The outer promise is still open in that state.
    Only `Resolved` and `Rejected` are settled.
- `deploySlaves` checks the count, builds one `PUT /services` request for
  `num = count`, and waits for it through the state machine with one operation
  and partial resolution on. It sets the timeout error when the wait's first slot
  is empty. Each item is copied with `appSlaveContainerName = "appslave_zap_<i+1>"`.
  Module `DeploySlaves` models it with pure functions. An item is a map from
  field names to JSON values. Items are values, so the input items are never
  mutated.

Module `Wrappers` holds `Option` (where `None` is `undefined`) and `Result`.

Two details of the source shape the model:
- Container names are `appslave_zap_<i+1>` (line 70).
- With partial resolution off, an expired timer throws inside the timer callback
  (line 23) before the latch is cleared (line 28). The outer promise stays
  pending, and it still resolves if every operation later fulfils.

## Model

| member | source | states |
|---|---|---|
| PromiseAllTimeout.Init | local/app-slave-provisioner/index.js:15-17 | The initial state satisfies the invariant: N empty slots, `finished` is 0, the latch is armed, the timer has not fired and the outer promise is pending. |
| PromiseAllTimeout.Filled | local/app-slave-provisioner/index.js:34-35 | The number of filled slots never exceeds the number of slots. |
| PromiseAllTimeout.FilledUpdate | local/app-slave-provisioner/index.js:34-35 | Filling one empty slot raises the filled count by exactly one, which is what keeps `finished` equal to the filled count. |
| PromiseAllTimeout.FilledAllIff | local/app-slave-provisioner/index.js:19-37 | The filled count equals N if and only if every slot holds a value. |
| PromiseAllTimeout.FilledNone | local/app-slave-provisioner/index.js:44-47 | A sequence of empty slots has filled count 0. |
| PromiseAllTimeout.StepPreservesInv | local/app-slave-provisioner/index.js:18-49 | Every event preserves the invariant. The invariant says: `finished` equals the filled count; a thrown timer leaves the latch armed; a cleared latch means the outer promise settled, either by full count or by a partial timer; the caller's resolved values stay in the shared results. |
| PromiseAllTimeout.RunPreservesInv | local/app-slave-provisioner/index.js:18-49 | The invariant, N and the partial flag hold after any admissible sequence of events. |
| PromiseAllTimeout.SuccessWritesOnlyItsSlot | local/app-slave-provisioner/index.js:33-35 | A fulfilment of promise i writes `Some(v)` into slot i only. Every other slot is unchanged and `finished` grows by exactly one. This also holds after the outer promise has settled. |
| PromiseAllTimeout.FullCompletionResolves | local/app-slave-provisioner/index.js:25-37 | The last fulfilment, while armed, clears the latch and resolves with the results, every slot filled. It resolves unless a rejection already settled the outer promise. |
| PromiseAllTimeout.PartialTimeoutResolves | local/app-slave-provisioner/index.js:19-49 | With partial resolution on and fewer than N done, the timer clears the latch and resolves with the current results. Exactly `finished` (< N) slots are filled. |
| PromiseAllTimeout.NonPartialTimerKeepsLatch | local/app-slave-provisioner/index.js:22-49 | With partial resolution off and fewer than N done, the timer leaves the latch armed, does not reject and does not resolve. A pending outer promise becomes `TimerThrew`. |
| PromiseAllTimeout.FailureRejectsAtOnce | local/app-slave-provisioner/index.js:32-40 | A rejection rejects the outer promise immediately with its error, unless it has already settled. It waits for neither the other promises nor the timer. |
| PromiseAllTimeout.SettledIsFinal | local/app-slave-provisioner/index.js:21-40 | Once resolved or rejected, the outer promise's outcome is the same after any further events. |
| PromiseAllTimeout.LatchStaysCleared | local/app-slave-provisioner/index.js:28-49 | Once `onFinish` has run to completion, the latch stays cleared and the outcome never changes, so nothing resolves a second time. |
| PromiseAllTimeout.RunSlots | local/app-slave-provisioner/index.js:25-35 | After any events, slot j holds v if and only if it held v before or promise j fulfilled with v. Slots are positional. |
| PromiseAllTimeout.RunTimerFlag | local/app-slave-provisioner/index.js:49 | The timer has fired if and only if it had fired before or a timer event was delivered. |
| PromiseAllTimeout.CompletionOrderIrrelevant | local/app-slave-provisioner/index.js:31-37 | Two event sequences with the same fulfilments give the same results, whatever the completion order. |
| PromiseAllTimeout.RacingStep | local/app-slave-provisioner/index.js:33-49 | Without rejections, and without the timer when partial resolution is on, each event keeps this invariant: the latch is armed and the outer promise open while fewer than N are done, and it is resolved with the full results once N are done. |
| PromiseAllTimeout.RacingRun | local/app-slave-provisioner/index.js:33-49 | The same invariant holds over any such sequence of events. |
| PromiseAllTimeout.AllSucceedResolvesInOrder | local/app-slave-provisioner/index.js:22-37 | If no promise rejects and all N fulfil, the outer promise resolves with every slot filled. Slot j holds v exactly when promise j fulfilled with v. With partial resolution off, this holds even when the timer fired first. |
| PromiseAllTimeout.PartialTimeoutFromStart | local/app-slave-provisioner/index.js:19-49 | From the start, if the timer fires after k < N fulfilments and no rejection, with partial resolution on, the outer promise resolves with exactly those k values at their own positions and N - k empty slots. |
| PromiseAllTimeout.EmptyListResolvesOnTimer | local/app-slave-provisioner/index.js:19-49 | With no promises, no fulfilment is possible, and the timer resolves the outer promise with the empty results and clears the latch, whatever the partial flag. |
| PromiseAllTimeout.ThreeOperationsScenario | local/app-slave-provisioner/index.js:14-50 | Three promises fulfil at 10, 500 and 20 ms against a 100 ms timer, with partial resolution on. The outer promise resolves with `[a, undefined, c]`. |
| PromiseAllTimeout.Aggregate.constructor | local/app-slave-provisioner/index.js:15-47 | The loop creates N empty slots. The new object's state is `Init(N, resolvePartial)`. |
| PromiseAllTimeout.Aggregate.RunOnFinish | local/app-slave-provisioner/index.js:18-29 | `onFinish` performs `Finish`: it throws, leaving the latch armed, or it resolves through the first-settle-wins rule and clears the latch. |
| PromiseAllTimeout.Aggregate.OnSuccess | local/app-slave-provisioner/index.js:33-38 | It performs one fulfilment `Step` and keeps the object invariant. Slot i now holds v and `finished` grew by one. |
| PromiseAllTimeout.Aggregate.OnFailure | local/app-slave-provisioner/index.js:40 | It performs one rejection `Step` and keeps the object invariant. |
| PromiseAllTimeout.Aggregate.OnTimer | local/app-slave-provisioner/index.js:49 | It performs one timer `Step` and keeps the object invariant. |
| PromiseAllTimeout.ThreeOperationsOnAggregate | local/app-slave-provisioner/index.js:14-50 | The same three-promise scenario, driven through the class's methods, ends `Resolved([a, undefined, c])`. |
| DeploySlaves.Decimal | local/app-slave-provisioner/index.js:58-70 | The decimal rendering of a number in a template literal is non-empty and all digits. It has no leading zero for a positive number. |
| DeploySlaves.DecimalRoundTrip | local/app-slave-provisioner/index.js:70 | Reading back the decimal rendering of n gives n. |
| DeploySlaves.RequestFor | local/app-slave-provisioner/index.js:55-63 | The result is an error if and only if the count is below 1 or above 12, and it carries the line-58 message. Otherwise it is exactly one `PUT /services` request for service `zap`, project `app-slave`, with `num` equal to the count. |
| DeploySlaves.ContainerName | local/app-slave-provisioner/index.js:70 | Every name is `appslave_zap_` followed by digits. |
| DeploySlaves.ContainerNameNumber | local/app-slave-provisioner/index.js:70 | The digits after the prefix read back as i + 1. |
| DeploySlaves.ContainerNamesDistinct | local/app-slave-provisioner/index.js:70 | Two positions get the same name if and only if they are the same position. |
| DeploySlaves.Decorate | local/app-slave-provisioner/index.js:68-72 | The result has the same length as the input. Item i has `appSlaveContainerName` set to `appslave_zap_<i+1>`, gains no other field, and keeps every other field of the input item unchanged. |
| DeploySlaves.DecoratedNamesDistinct | local/app-slave-provisioner/index.js:68-72 | No two decorated items share a container name. |
| DeploySlaves.Complete | local/app-slave-provisioner/index.js:66-74 | `error` is set, to the timeout message, if and only if the wait's first slot is empty. The items are exactly `Decorate(items)`: one copy per input item, named, with every other field kept. |
| DeploySlaves.Deploy | local/app-slave-provisioner/index.js:53-75 | It is a validation error if and only if the count is outside 1-12, whatever the wait does. Otherwise it waits while the wait is unsettled, holding the one `PUT /services` request for `zap`/`app-slave` with `num` equal to the count. It fails with the rejection's error. Or it completes with items exactly `Decorate(items)` and the error flag set if and only if the first slot is empty. |
| DeploySlaves.DeployOverWait | local/app-slave-provisioner/index.js:14-66 | For any order of the response and the timer, the single-request wait with partial resolution on never ends in a thrown timer. Once it resolves, the error is set only if the timer fired, and unset only if the request fulfilled. |

## Left out

- The axios client and the HTTP PUT (lines 61 and 63) are library and network calls. The request is the value `PutRequest`, and its completion is one pending operation whose fulfilment value is always present (truthy).
- Real time and promise scheduling (`setTimeout`, microtasks; line 49) are not modelled. The timeout duration does not appear: every order of the three kinds of events is allowed, which includes every order real timing can produce.
- `printEnv` and `console.log` (lines 5-11) are logging only.
- `provisionAppSlaves` (lines 77-90) is not modelled. It reads `process.env`, converts the timeout string to milliseconds, and wraps the result in a response object.
- A promise that fulfils with `undefined` is not modelled: its slot would look empty although it was counted. Fulfilment values are always present.
- PromiseAllTimeout.Aggregate.OnFailure: a rejection event names no promise. The model therefore also allows a rejection from a promise that already fulfilled. This is a superset of the real behaviours, so every property proved still holds.
- PromiseAllTimeout.Aggregate.OnTimer: the exception thrown by the timer callback when partial resolution is off is recorded only as `TimerThrew`, and only while the outer promise is pending. What the runtime then does with an uncaught exception is not modelled.
- PromiseAllTimeout.Aggregate.RunOnFinish: `resolve(results)` hands the caller the same array that later fulfilments keep writing into. `Resolved(values)` is a copy taken at resolution. The invariant proves that every value in the copy stays in `results`; later fulfilments only fill further slots.
- DeploySlaves.Deploy: the model does not cover a fulfilment landing in the shared array between the resolution and the resumption of the `await` on line 64. In that case the value read at line 66 could differ from the copy.
- DeploySlaves.Decorate: the spread on line 69 copies only own enumerable fields of a plain object. An item is modelled directly as its map of fields, so prototypes and getters do not arise.
- DeploySlaves.Decorate: an item is always an object, and field values are a small JSON type whose numbers are integers. Non-object items are not represented; spreading such an item gives an object with no fields or with index fields. Nor are fractional numbers. The order of fields, which the spread keeps, is not represented either. Field values are only copied, never inspected, so none of this changes what is proved.
