# remote-promise, modelled in Dafny

`RemotePromise<T>` is a promise that can be settled from outside. Its
constructor builds a native `Promise` and keeps that promise's `resolve` and
`reject` callbacks. It then offers them as public `resolve(value)` and
`reject(reason)` methods. Each method first runs the private guard
`assertPending`, which throws `This promise has already been <status>.` once
the private `_status` field has left `'pending'`. Only after the guard passes
does the method set `_status` to `'fulfilled'` or `'rejected'` and hand the
payload to the captured callback. The `status` getter reads `_status`, and the
`promise` getter returns the native promise.

The model has three modules:

- `StateMachine` (`state_machine.dfy`) holds the settlement state machine as
  values:
  - the status (`Pending | Fulfilled | Rejected`);
  - a `Slot` holding the payload handed to the captured native settle callback
    (`Empty | Value(v) | Reason(r)`);
  - the guard `AssertPending`;
  - one call, `Step`, and a sequence of calls, `Run`.
  It also holds the lemmas for the one-shot and monotonicity guarantees, and
  the guard's error message.
- `Remote` (`remote_promise.dfy`) holds the class `RemotePromise<T, E>`. Its
  fields `status` and `slot` are updated in place by `Resolve` and `Reject`.
  Each method's contract ties its new state and its result to `Step`.
  `Scenarios.IssueAll` lifts this to whole call sequences on one object, so
  the lemmas about `Run` apply to the object itself. The
  thrown error becomes a returned `Result`: `Ok`, or `AlreadySettled(current)`
  carrying the status the guard saw.
- `Scenarios` (`scenarios.dfy`) holds client methods that use only the class's
  contracts. They restate the repository's tests for every payload:
  - a fresh instance is pending;
  - a first settlement succeeds and records its payload;
  - all four resolve/reject pairs make the second call fail;
  - over any sequence of calls on one object, exactly the first one succeeds.

The reason type of `reject` is `any` in the source. Here it is a second type
parameter `E`. An omitted `value` or `reason` is the `undefined` value of its
type, so it is just one more value of `T` or `E`.

The failure has no error class of its own. The code throws a plain `Error`
whose only distinguishing content is its message. So the model
keeps the status in `AlreadySettled(current)` and gives the message text
separately in `StateMachine.ErrorMessage`. `StateMachine.ErrorMessageNamesStatus`
proves that the message tells the statuses apart.

## Model

| member | source | states |
|---|---|---|
| `Remote.RemotePromise.constructor` | src/index.ts:1-21 | a new instance has status pending and an unsettled native promise, and status and slot agree |
| `Remote.RemotePromise.GetStatus` | src/index.ts:29-31 | returns the current status and modifies nothing, so reading it has no side effects |
| `Remote.RemotePromise.GetPromise` | src/index.ts:24-26 | returns the payload handed to the captured settle callback (the slot) and modifies nothing |
| `Remote.RemotePromise.Resolve` | src/index.ts:43-47 | succeeds exactly when the old status is pending; on success the status is fulfilled and exactly `value` is recorded; otherwise it reports `AlreadySettled` with the old status and leaves status and slot unchanged; the new state is `Step` of the old one |
| `Remote.RemotePromise.Reject` | src/index.ts:50-54 | succeeds exactly when the old status is pending; on success the status is rejected and exactly `reason` is recorded; otherwise it reports `AlreadySettled` with the old status and leaves status and slot unchanged; the new state is `Step` of the old one |
| `StateMachine.AssertPending` | src/index.ts:34-38 | the guard passes if and only if the status is pending; when it fails it carries the current status, which is fulfilled or rejected |
| `StateMachine.Initial` | src/index.ts:3 | the initial state is pending with an empty slot |
| `StateMachine.SettledBy` | src/index.ts:45-53 | a successful call leaves a non-pending, consistent state: fulfilled exactly for `resolve`, with exactly the call's value or reason in the slot |
| `StateMachine.Step` | src/index.ts:43-54 | one call succeeds if and only if the promise is pending; success yields the call's settled state; failure returns `AlreadySettled(current status)` and the unchanged state; a call keeps status and slot in agreement |
| `StateMachine.Run` | src/index.ts:43-54 | a run of calls reports one result per call |
| `StateMachine.SettledIsInert` | src/index.ts:34-38 | once settled, every further call fails with the settled status and the state never changes |
| `StateMachine.RunAppend` | src/index.ts:43-54 | running two call sequences one after the other is the same as running their concatenation |
| `StateMachine.OneShot` | src/index.ts:34-54 | from pending, the first call succeeds and fixes the final state; every later call fails, naming that state's status |
| `StateMachine.NoSuccessesWhenSettled` | src/index.ts:34-38 | no attempt on a settled promise succeeds |
| `StateMachine.ExactlyOneSuccess` | src/index.ts:34-54 | over any sequence of calls exactly one succeeds if the promise starts pending and is called at all, and none otherwise |
| `StateMachine.RunFollowsEdges` | src/index.ts:34-54 | any run follows pending → fulfilled or pending → rejected or stays put, and it ends pending if and only if it started pending with no calls |
| `StateMachine.Monotonic` | src/index.ts:34-54 | for any prefixes i ≤ j of a run, the state after j is the state after i, or the state after i is pending and the one after j is settled |
| `StateMachine.RunConsistent` | src/index.ts:43-54 | every state a run reaches from a consistent state is consistent |
| `StateMachine.StatusName` | src/index.ts:57 | each status maps to its own `PromiseStatus` literal, and each literal to exactly one status |
| `StateMachine.ErrorMessage` | src/index.ts:36 | the message is the fixed prefix `This promise has already been `, then the current status's literal, then `.` |
| `StateMachine.ErrorMessageNamesStatus` | src/index.ts:36 | the thrown message is the same for two statuses if and only if they are the same status |
| `Scenarios.FreshIsPending` | tests/index.test.ts:12-15 | a fresh instance reports status pending and nothing recorded |
| `Scenarios.SettleFresh` | tests/index.test.ts:17-47 | settling a fresh instance succeeds, gives fulfilled for `resolve` and rejected for `reject`, and records exactly the payload |
| `Scenarios.IssueAll` | src/index.ts:43-54 | issuing a sequence of `resolve`/`reject` calls on one object leaves it in the state `Run` gives and returns the results `Run` gives |
| `Scenarios.SettleMany` | src/index.ts:34-54 | on a fresh object, any sequence of calls has exactly one success if it is non-empty and none otherwise; the first call fixes status and payload; every later call fails naming that status |
| `Scenarios.SettleTwice` | tests/index.test.ts:51-73 | for all four resolve/reject pairs the second call fails with the first call's status, and that status and payload stay |

## Left out

- The native `Promise` runtime is not modelled: microtask scheduling, delivery to continuations, and `then`/`catch` chaining (src/index.ts:7-8, 14-20). It is foreign runtime behaviour. The payload handed to the native callback appears only as the abstract `Slot`.
- The `promise` getter returns the slot and not a native promise object, for the same reason.
- The native `resolve` callback adopts a thenable payload instead of fulfilling with it (src/index.ts:46, with `T` defaulting to `any` at src/index.ts:1). So status `fulfilled` with `Value(v)` in the slot does not imply that the native promise fulfils with `v`: it may reject, stay pending forever, or reject with a self-resolution error when handed itself. The model records what the callback was handed, not what the native promise ends up settled with.
- `Symbol.toStringTag` (src/index.ts:10) is an introspection tag with no behaviour.
- The TypeScript overload signatures and type aliases (src/index.ts:41-42, 57-65) are compile-time only.
- The default export (src/index.ts:67) and the matching test (tests/index.test.ts:7-9) concern module wiring only.
- Concurrency is not modelled, because the source runs on a single-threaded host.
- The tests that await the promise or attach continuations (tests/index.test.ts:31-47, 77-132) are covered only as far as the slot records the exact payload. What a continuation receives, and how often it runs, is runtime behaviour.
