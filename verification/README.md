# ReceiverLink lifecycle model

A Dafny model of the lifecycle state machine of the AMQP `ReceiverLink` of the
Azure IoT SDK for Node.js (`common/transport/amqp/src/receiver_link.ts`), with
proofs about it.

The link has four states: `detached`, `attaching`, `attached` and `detaching`.
It owns an optional amqp10 receiver, a FIFO queue of pending settlements
(`accept`, `reject`, `abandon`) and an implicit count of `message` subscribers.
The model is one pure step function, `ReceiverLink.Step(machine, event)`.
It returns the next machine and the sequence of effects the link produces:
- `CreateReceiver(token)`: the link asks the client for a receiver;
- `LinkSettle(handle, method, obj)`: a settlement is called on a receiver;
- `ForceDetach(handle)`: the link releases a receiver;
- `Callback(id, outcome)`: a caller's callback runs;
- `EmitError(e)` and `EmitMessage(x)`: link-level events.

An event is one of:
- a facade call;
- a subscription change;
- an amqp10 completion or event: creation succeeded or failed, a client connection error, a receiver `detached`, `errorReceived` or `message`.

The receivers and the client are not modelled beyond those events.

Files and modules:
- `wrappers.dfy`: `Option` and `Result`.
- `link_types.dfy`: states, requests, effects and the `Machine` record.
- `trace.dfy`: projections of an effect sequence. They list dispatched settlements, resolved callbacks, emitted errors, creations and releases.
- `settlement_queue.dfy`: the queue. It is flushed onto an attached receiver, or drained with an error.
- `link_machine.dfy`: the per-state handler table and the entry actions.
  - The state-machine library's semantics are written out. A transition to the current state is a no-op.
  - An input a state has no handler for is dropped.
  - `detaching` defers every input until `detached` is entered, and the inputs are then replayed in order.
- `attach_link.dfy`: `_attachLink` and the `done` callback of the `attaching` entry action. This covers how a creation outcome, raced against connection errors, becomes a transition, a callback or an `error` event.
- `receiver_link.dfy`: the facade, the `message` subscription hooks, the receiver handlers and `Step`.
- `link_properties.dfy`: the invariant of a resting link, and the properties of each kind of step.
- `scenarios.dfy`: the traces of the link's unit tests, replayed step by step from a fresh link.

Each creation is identified by a token, and the receiver it yields is
identified by the same number. Because `detach` does not cancel an in-flight
creation, several creations can be outstanding at once. The model keeps them
all, keyed by token, with each one's attach callback and any connection error
it has seen.

Behaviour a reader might not expect, as the code has it:
- `attach` while `attaching` is dropped together with its callback, because `attaching` has no `attach` handler (receiver_link.ts:86-102). The callback is not deferred until the attach resolves.
- After a failed attach that has an attach callback, queued settlements fail with the generic "Link was detached" error. The attach callback gets the real one, and no `error` is emitted (receiver_link.ts:90-92, 58-68).
- `detach` while `attaching` does not cancel the creation. A later success still stores the receiver, listens to it and moves to `attached`; there is no generation guard (receiver_link.ts:98, 201-213).
- A creation left over from such a race that fails after the link has moved on still runs its `done` callback. From `attached`, the link drops to `detached` but keeps, and keeps listening to, the receiver it holds, so that receiver's messages are still forwarded. From `detached`, a failure without an attach callback is lost (receiver_link.ts:88-95; a transition to the current state does nothing).
- A `detached` link can still hold a receiver: detach while attaching, attach again, let the second creation succeed and then the first fail late. Removing the last `message` subscriber then releases nothing, because `detached` ignores `detach` (receiver_link.ts:72, 147-152), and the receiver's messages are still forwarded.
- The receiver released on `detached` or `errorReceived` is the one the link holds, not necessarily the one that reported. After the detach-while-attaching race, a stale receiver that is still listened to can report `detached`: the current receiver is force-detached, and the stale one stays listened to (receiver_link.ts:34-40, 130-141).
- Inputs are deferred only while `detaching`, and `detaching` is entered and left within one step. So from a link at rest no input is ever deferred; deferral matters only for calls made back into the link during the `detaching` entry action (receiver_link.ts:130-142).

## Model

| member | source | states |
|---|---|---|
| SettlementQueue.SettleOn | common/transport/amqp/src/receiver_link.ts:117-128 | An attached settlement calls exactly the matching receiver method once, with the transport object. Its callback, if given, is then called once with the matching success result and follows that call. |
| SettlementQueue.Flush | common/transport/amqp/src/receiver_link.ts:104-110 | The `attached` entry action settles every queued request on the held receiver, front to back. Reading the trace back, each call paired with the callback directly after it, gives exactly the queue: each callback is answered right after its own request's call, with that call's success result. Nothing else happens. |
| SettlementQueue.FailAll | common/transport/amqp/src/receiver_link.ts:59-63 | Every queued callback is called exactly once, in queue order, with the given error, and nothing else happens. |
| SettlementQueue.Drain | common/transport/amqp/src/receiver_link.ts:58-68 | Entering `detached` resolves every queued callback once, in order, with the carried error or else the generic one. `error` is emitted once, after them, if and only if an error was carried. Nothing is dispatched, created or released. |
| SettlementQueue.DrainAsWritten | common/transport/amqp/src/receiver_link.ts:58-68 | The drain loop as written finishes if and only if every queued request has a callback, and it then equals `Drain`. Otherwise it throws before any `error` is emitted. |
| SettlementQueue.FailAllAsWritten | common/transport/amqp/src/receiver_link.ts:59-63 | The callback loop as written completes if and only if every request has a callback, and it then equals `FailAll`. |
| SettlementQueue.DrainAsWrittenThrowsOnMissingCallback | common/transport/amqp/src/receiver_link.ts:59-63 | Counterexample: a single `accept` queued without a callback makes the drain as written throw, and no `error` is emitted. The corrected drain emits the error. |
| LinkMachine.EnterAttaching | common/transport/amqp/src/receiver_link.ts:86-97 | Entering `attaching` starts exactly one creation under a fresh token. That creation records the attach callback and has seen no connection error. Creations already outstanding are kept unchanged, and nothing else about the link changes. The only effect is the `createReceiver` call. |
| LinkMachine.EnterAttached | common/transport/amqp/src/receiver_link.ts:103-110 | Entering `attached` empties the queue and keeps the receiver. Reading the trace back gives exactly the queue: each request is dispatched on that receiver in order, and its callback directly follows its call with the matching success. |
| LinkMachine.Handle | common/transport/amqp/src/receiver_link.ts:69-143 | The per-state handlers keep the link valid and the subscriber count unchanged. Outside `detaching` no input leads into `detaching` or grows the deferred inputs. In `detaching` every input is only deferred. |
| LinkMachine.EnterDetaching | common/transport/amqp/src/receiver_link.ts:130-141 | The `detaching` entry action always ends outside `detaching`, with no deferred input left and the subscriber count unchanged. |
| LinkMachine.EnterDetached | common/transport/amqp/src/receiver_link.ts:58-68 | The `detached` entry action ends outside `detaching`, with no deferred input left. |
| LinkMachine.Replay | common/transport/amqp/src/receiver_link.ts:142 | Replaying deferred inputs from a non-`detaching` state never re-enters `detaching` and never adds deferred inputs. |
| AttachLink.TransitionTo | common/transport/amqp/src/receiver_link.ts:89-95 | A transition to the state the link is already in does nothing. Any other transition leaves the link outside `detaching`. |
| AttachLink.Finish | common/transport/amqp/src/receiver_link.ts:88-96 | With an attach callback, the last effect of a completed attach is that callback, with the failure or with success. |
| AttachLink.ResolveCreation | common/transport/amqp/src/receiver_link.ts:200-224 | A creation outcome keeps the link valid and the subscriber count unchanged. An outcome for a token with no outstanding creation changes nothing. |
| AttachLink.ObserveConnectionError | common/transport/amqp/src/receiver_link.ts:191-196 | A client connection error is recorded against every outstanding creation, the last error wins, and nothing else changes. |
| ReceiverLink.Settle | common/transport/amqp/src/receiver_link.ts:170-187 | A settlement throws `ReferenceError` if and only if the message is absent. Otherwise the link stays valid. |
| ReceiverLink.Apply | common/transport/amqp/src/receiver_link.ts:162-187 | The only thing a facade call can throw is `ReferenceError`. A call that does not throw keeps the link valid and the subscriber count unchanged. |
| ReceiverLink.AddMessageListener | common/transport/amqp/src/receiver_link.ts:154-159 | Every new `message` subscriber raises the count by one and keeps the link valid. |
| ReceiverLink.RemoveMessageListener | common/transport/amqp/src/receiver_link.ts:147-152 | Removing a subscriber lowers the count and never goes below zero. Unless the last subscriber is removed, nothing else changes. |
| ReceiverLink.ReceiverLost | common/transport/amqp/src/receiver_link.ts:34-40 | `detached` or `errorReceived` from a receiver the link no longer listens to changes nothing. Otherwise the link stays valid. |
| ReceiverLink.Step | common/transport/amqp/src/receiver_link.ts:34-44 | Only a facade call can fail, and only with `ReferenceError`. A successful step keeps the link valid. This holds because the state machine runs the corrected drain (see Findings). With the drain as written, a teardown that reaches a queued request without a callback throws `TypeError`. |
| LinkProperties.InitialSatisfiesInv | common/transport/amqp/src/receiver_link.ts:27-32 | A new link, `detached` with an empty queue and no receiver, is in the resting invariant. |
| LinkProperties.EnterDetachingReleasesOnce | common/transport/amqp/src/receiver_link.ts:130-141 | If a receiver is held, `detaching` stops listening to it, force-detaches it exactly once and forgets it. It then enters `detached` with the same error: the queue is drained with that error and the link ends `detached`. |
| LinkProperties.EnterDetachedQuiet | common/transport/amqp/src/receiver_link.ts:58-68 | With no deferred input, entering `detached` only drains the queue and empties it. |
| LinkProperties.DeferredInputIsReplayed | common/transport/amqp/src/receiver_link.ts:142 | An input deferred in `detaching` is not lost. Entering `detached` afterwards has the same outcome as entering it first and handling the input right after. |
| LinkProperties.ReplaySnoc | common/transport/amqp/src/receiver_link.ts:142 | Deferred inputs are replayed in arrival order. Replaying `a` followed by `i` is replaying `a`, then handling `i` in the state `a` left the link in. By induction on `a`, each input is handled once, after all the inputs before it. |
| LinkProperties.HandlePreservesInv | common/transport/amqp/src/receiver_link.ts:69-129 | Every handler from a resting state leads to a resting state. |
| LinkProperties.ResolveCreationPreservesInv | common/transport/amqp/src/receiver_link.ts:88-96 | Every creation outcome, for any token, leads from a resting state to a resting state. |
| LinkProperties.StepPreservesInv | common/transport/amqp/src/receiver_link.ts:34-44 | Every event leads from a resting state to a resting state. |
| LinkProperties.FacadeSettlement | common/transport/amqp/src/receiver_link.ts:170-187 | `accept`, `reject` and `abandon` throw `ReferenceError` on an absent message and leave the link alone. Otherwise exactly the message's transport object enters the state machine as the matching request. `complete` is `accept`. |
| LinkProperties.SettleWhileNotAttachedIsQueued | common/transport/amqp/src/receiver_link.ts:73-101 | A settlement while not attached is appended to the queue and reaches no receiver or callback. From `attaching` nothing else changes. From `detached` it also starts exactly one creation, and the link moves to `attaching` with `EnterAttaching`'s frame, so the receiver, the subscribers and the outstanding creations are kept. |
| LinkProperties.SettleWhenAttached | common/transport/amqp/src/receiver_link.ts:117-128 | A settlement while attached dispatches exactly its request on the held receiver and resolves exactly its callback, with the matching success. The link is unchanged. |
| LinkProperties.SucceedExact | common/transport/amqp/src/receiver_link.ts:201-213 | A creation that succeeds with no connection error seen, in any state: the receiver is stored and listened to, and the link is attached. The queue is flushed on that receiver, and the attach callback, if any, gets success. After a `detach` while attaching, this replaces the receiver an attached link held. |
| LinkProperties.CreationSuccessFlushesQueue | common/transport/amqp/src/receiver_link.ts:206-213 | A creation that succeeds while attaching, with no connection error seen, keeps its receiver. Every settlement call goes to that receiver, and the whole queue is flushed on it in order. Every queued callback gets its success result, and the attach callback, if any, gets success as the very last effect. Nothing is emitted, created or released. |
| LinkProperties.FlushThenAnswer | common/transport/amqp/src/receiver_link.ts:103-110 | A flush followed by the attach callback dispatches exactly the queue's requests. It resolves the queued callbacks and then the attach callback, and emits, creates and releases nothing. |
| LinkProperties.FlushThenAnswerShape | common/transport/amqp/src/receiver_link.ts:117-128 | In a flush followed by the attach callback, every settlement call is on the given receiver. Every callback reports a settlement, except the attach callback at the very end. |
| LinkProperties.CreationFailureRouting | common/transport/amqp/src/receiver_link.ts:87-96 | A failed creation while attaching returns to `detached`. The failed creation's receiver is not stored, and the receiver field is left as it was. With an attach callback, queued callbacks get the generic error, nothing is emitted, and the attach callback gets the real error last. Without one, queued callbacks get the real error and it is emitted. |
| LinkProperties.LateFailureRouting | common/transport/amqp/src/receiver_link.ts:88-95 | A creation that fails after the link left `attaching` lands in `detached` with the receiver it holds, if any. Only the attach callback, if any, hears the error. Without one, the error is emitted when the link was attached and lost when it was already detached. |
| LinkProperties.FailedFinish | common/transport/amqp/src/receiver_link.ts:88-95 | `done` with an error takes the link to `detached`, draining its queue unless it was already there. The error goes to the attach callback if there is one, and otherwise rides the transition. |
| LinkProperties.ConnectionErrorTurnsSuccessIntoFailure | common/transport/amqp/src/receiver_link.ts:191-224 | A success after a connection error has the same effects as a rejection with that error, however many creations are outstanding. It leaves the same link, apart from the other creations having recorded the error too, and the receiver is not stored. With only that creation outstanding, the two outcomes are identical. |
| LinkProperties.AttachCreatesOnlyWhenDetached | common/transport/amqp/src/receiver_link.ts:69-71 | `attach` creates a receiver only from `detached`. When attached it answers its callback at once and changes nothing. While attaching it is dropped. |
| LinkProperties.DetachWhenDetachedIsNoOp | common/transport/amqp/src/receiver_link.ts:72 | `detach` on a detached link has no effect at all. |
| LinkProperties.DetachTearsDown | common/transport/amqp/src/receiver_link.ts:98 | `detach` from `attaching` or `attached` releases the held receiver once, lands in `detached`, and fails every queued callback with the generic error. Nothing is emitted or dispatched. |
| LinkProperties.ReleaseThenDrain | common/transport/amqp/src/receiver_link.ts:130-141 | Tearing down resolves exactly the queued callbacks, all with the drain error. It emits the carried error if and only if there is one, and dispatches nothing. |
| LinkProperties.ReceiverLossTearsDown | common/transport/amqp/src/receiver_link.ts:34-40 | `detached` or `errorReceived` on a listened receiver tears the link down with that error. The held receiver, which need not be the one that reported, is released once and unlistened; any other listened receiver stays listened. Queued callbacks fail with the error, and the error is emitted. From an unlistened receiver it does nothing. |
| LinkProperties.MessagesForwardedFromCreatedReceiver | common/transport/amqp/src/receiver_link.ts:208-211 | Once a creation succeeds, the link forwards the new receiver's messages unchanged as its own `message` events. |
| LinkProperties.MessagesStopAfterDetach | common/transport/amqp/src/receiver_link.ts:133-135 | After `detach` lets go of the held receiver, messages still arriving from it are dropped. |
| LinkProperties.MessagesStopAfterReceiverLoss | common/transport/amqp/src/receiver_link.ts:133-135 | After the held receiver reports `detached` or `errorReceived`, messages still arriving from it are dropped. |
| LinkProperties.MessagesStopAfterLastUnsubscribe | common/transport/amqp/src/receiver_link.ts:147-152 | After the last `message` subscriber leaves, messages still arriving from the released receiver are dropped. |
| LinkProperties.SubscribeAttaches | common/transport/amqp/src/receiver_link.ts:154-159 | A new `message` subscriber issues `attach` with no callback. A creation starts only from `detached`, no callback runs, nothing is released, and the count grows by one. |
| LinkProperties.TwoSubscriptionsCreateOnce | common/transport/amqp/src/receiver_link.ts:154-159 | Two subscriptions on a detached link cause exactly one creation. |
| LinkProperties.OnlyLastUnsubscribeDetaches | common/transport/amqp/src/receiver_link.ts:147-152 | Removing a subscriber other than the last releases nothing and keeps the state. Removing the last one from `attaching` or `attached` detaches the link, releasing the held receiver exactly once. From `detached` it only lowers the count, because `detached` ignores `detach`. |
| LinkProperties.NoDispatchUnlessAttached | common/transport/amqp/src/receiver_link.ts:103-129 | No event dispatches a settlement unless the link ends that step attached and holding a receiver. |
| LinkProperties.DispatchOnlyOnSuccess | common/transport/amqp/src/receiver_link.ts:200-224 | A creation outcome dispatches settlements only when the link ends attached and holding a receiver. |
| Scenarios.Run | common/transport/amqp/src/receiver_link.ts:54-145 | A run of events from a valid link, stopped by the first throwing call, ends in a valid link. |
| Scenarios.RunPreservesInv | common/transport/amqp/src/receiver_link.ts:54-145 | Any run from a resting link ends in a resting link. |
| Scenarios.QueuedSettlementsFlushInOrder | common/transport/amqp/test/_receiver_link_test.js:66-90 | Two accepts queued behind a slow creation are settled on the new receiver in order. Their callbacks run in order and then the attach callback. |
| Scenarios.QueuedSettlementGetsAttachError | common/transport/amqp/test/_receiver_link_test.js:107-122 | A settlement that starts the attach itself fails with the creation's error, and that error is emitted. |
| Scenarios.AttachCallbackTakesTheRealError | common/transport/amqp/src/receiver_link.ts:87-96 | With an attach callback, the queued settlement gets the generic error, the attach callback gets the real one, and nothing is emitted. |
| Scenarios.LastUnsubscribeDetaches | common/transport/amqp/test/_receiver_link_test.js:170-192 | Two subscribers cause one creation. The first unsubscribe releases nothing, and the second force-detaches the receiver once. |
| Scenarios.AttachWhenAttachedCreatesNothing | common/transport/amqp/test/_amqp_link_test.js:51-65 | A second `attach` on an attached link answers at once and creates no receiver. |
| Scenarios.ConnectionErrorDuringCreationFailsAttach | common/transport/amqp/test/_amqp_link_test.js:79-94 | A connection error while the receiver is being created fails the attach with that error, and the receiver is not kept. |
| Scenarios.ReattachAfterReceiverDetached | common/transport/amqp/test/_amqp_link_test.js:138-156 | After the receiver reports `detached`, the link is `detached`, and a new `attach` starts a second creation. |
| Scenarios.ReceiverErrorIsEmitted | common/transport/amqp/test/_receiver_link_test.js:210-224 | `errorReceived` on the receiver releases it and surfaces the error as an `error` event. |
| Scenarios.DetachWhileAttachingLeavesTwoReceivers | common/transport/amqp/src/receiver_link.ts:98 | `detach` while attaching does not cancel the creation. A second `attach` starts another one, both receivers end up listened to, and the first is never force-detached. |
| Scenarios.MissingCallbackCrashIsReachable | common/transport/amqp/src/receiver_link.ts:73-76 | `accept` with no callback on a detached link queues a request without a callback. If the creation is then rejected, the drain as written throws, while the corrected drain only emits the error. |

## Left out

- amqp10 client and receiver objects: they are a foreign library. Creation, the client's `client:errorReceived`, and a receiver's `detached`, `errorReceived` and `message` are inputs of `Step`. The promises returned by the receiver's `accept`, `reject` and `abandon` are ignored by the code, so per-request receiver failures are not modelled.
- The client's `client:errorReceived` listener bookkeeping: adding and removing the per-attempt listener, including the listener left registered on the reject path. Only its effect is modelled: the error is recorded against the outstanding creation.
- `process.nextTick` in `_safeCallback`: a creation outcome is one input. Storing the receiver and running `done` happen in that same step, and no other event can come between them. In the source, a `detach` that runs after the receiver is stored (receiver_link.ts:208) but before the deferred `done` (line 213) releases and forgets that receiver, and `done` then moves the link to `attached` with no receiver. The next `accept` then throws a `TypeError` at line 118. The invariant that an attached link holds a receiver (`LinkProperties.Inv`), and the `ReceiverLink.Step` row's claim that only `ReferenceError` is thrown, both rest on this collapse.
- Re-entry from user callbacks: a callback is an effect, and whatever the callback does next is a later event.
- The state-machine and event-emitter libraries' internals. The state machine's semantics are written out in `link_machine.dfy`. The event emitter is reduced to effects: the `message` subscribers are a counter, and an emitted event is an effect in the trace (see `EmitError` below).
- The receiver's own `detached` debug listener, and the `debug` logging.
- Converting AMQP messages to SDK messages: messages are opaque transport objects.
- Message contents, the link address and the link options: they do not affect the state machine.
- `SenderLink`: its source is not part of this model.
- LinkMachine.EnterDetaching: its own contract states only where the link lands. The release of the receiver and the drain are stated by `LinkProperties.EnterDetachingReleasesOnce`, for a link with nothing deferred. The replay of deferred inputs that follows is stated by `LinkProperties.DeferredInputIsReplayed` and `LinkProperties.ReplaySnoc`.
- LinkMachine.EnterDetached: its own contract states only where the link lands. The drain is stated by `LinkProperties.EnterDetachedQuiet`, and the replay by `LinkProperties.DeferredInputIsReplayed` (one deferred input) and `LinkProperties.ReplaySnoc` (the order of several).
- AttachLink.ResolveCreation: its own contract states only validity and the unknown-token case. The routing of outcomes is stated for a link at rest in any state:
  - `LinkProperties.SucceedExact` covers success in every state.
  - `LinkProperties.CreationFailureRouting` covers failure while attaching.
  - `LinkProperties.LateFailureRouting` covers failure once attached or detached.
  - `LinkProperties.ConnectionErrorTurnsSuccessIntoFailure` covers the connection-error race.
- LinkMachine.Replay: its own contract states only where the link lands. The order of replay is stated by `LinkProperties.ReplaySnoc`. Deferral itself is never reached from a link at rest: it needs a call back into the link during the `detaching` entry action, and the model has no such re-entry (see above).
- ReceiverLink.ReceiverMessageOut: it has no contract of its own. Forwarding is tied to the receiver's lifecycle through `Step`:
  - `LinkProperties.MessagesForwardedFromCreatedReceiver` states that messages flow from creation on.
  - `LinkProperties.MessagesStopAfterDetach`, `LinkProperties.MessagesStopAfterReceiverLoss` and `LinkProperties.MessagesStopAfterLastUnsubscribe` state that they stop once the receiver is released.
- EmitError: Node's event emitter throws when `error` is emitted with no `error` listener, so lines 65-67 throw when nobody subscribed to `error`. The model does not count `error` subscribers, and an `EmitError` effect never throws.

## Findings

| source | as written | input that shows it | evidently intended | confidence | as-written member | corrected member |
|---|---|---|---|---|---|---|
| common/transport/amqp/src/receiver_link.ts:61 | The drain loop calls `toSettle.callback(...)` without checking that a callback was given. The settlement methods accept an optional callback, and the `attached` handlers do check it. | `accept(msg)` with no callback on a detached link, followed by a rejected creation. The drain then throws a `TypeError` from the completion handler, and `error` is never emitted. | Skip requests that have no callback, as the `attached` handlers do, then emit the error. | not executed | SettlementQueue.DrainAsWritten | SettlementQueue.Drain |
