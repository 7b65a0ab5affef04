# coros core primitives in Dafny

A model of the sequential state machines at the heart of the coros
cooperative-task library, with the properties their code and tests promise
proved about them.

- `channel.dfy` (module `Channel`): the single-value channel of
  `sender_reciever.h`. The shared `holder` is a class `Holder` with a FIFO
  `queue`, a continuation `slot` and the `receiverAlive` flag (`alive_`).
  The slot's three meanings are explicit: `Empty` (no continuation),
  `Waiting` (a receiver installed its deferred completion) and `SenderGone`
  (the sender's destructor installed its no-op). `Sender` and `Receiver` are
  classes over a nullable holder; a moved-from endpoint has none. The holder's
  behaviour is also given as a value-level state machine (`SendStep`,
  `ReceiveStep`, `Step`, `Run`). The class methods are tied to it, and the
  order, liveness and drain properties are proved as lemmas about it. Ghost
  logs `sent` and `delivered` in the holder record the values offered to the
  receiver and the values its waits were completed with. `Holder.Valid()`
  states that values come out in the order they went in, and that a receiver
  waits only while the queue is empty.
- `setable_resume.dfy` (module `SetableResume`): `asio_setter` as class
  `Setter` (one optional handler slot) and `setable_resume` as class
  `SetableResume`. A ghost log records each handler completed and its
  arguments.
- `move_only_function.dfy` (module `MoveOnlyFunctions`): the custom
  `move_only_function` as class `MoveOnlyFunction`, holding an optional
  opaque function value.
- `unique_coroutine.dfy` (module `UniqueCoroutines`): `unique_coroutine` as
  class `UniqueCoroutine` over an abstract pool of coroutine frames
  (`Frames`). The pool keeps the live handles with their completion state
  and, as ghost state, the destroyed handles and the owner of each live
  handle. A frame can only be destroyed while it is live, so every destroy
  that the owner's methods perform is provably the first and only one.
- `wrappers.dfy` (module `Wrappers`): `Option`, `Result`, `Outcome`.

Behaviour of the code that its own comments (sender_reciever.h:37 and 105-106)
do not spell out, modelled as the code has it:

- A receiver's destruction clears `alive_` for good. A receiver made
  afterwards does not set it again, so `send` keeps returning false.
- The sender's destructor overwrites a `Waiting` continuation with its no-op.
  The suspended receive is abandoned, not completed. The receiver learns that
  the sender is gone through `has_sender` or at its next receive; while it was
  waiting the queue was already empty, so that next receive fails at once.
- A receive while the slot is already `Waiting` fails, like one after the
  sender is gone.
- `send` on a `SenderGone` slot (possible only if a second sender shares the
  holder) passes the value to the no-op. The value is lost, the slot is
  cleared, and `send` returns true (`Delivery.Swallowed`).
- The defaulted move assignments of `sender` and `reciever` do not run the
  destructor's effect on the holder they overwrite.

The endpoints' `assert`s on a moved-from object are preconditions
(`holder != null`). The endpoint constructors' `throw` on a null holder is a
`Result` failure (`NewSender`, `NewReceiver`, `ReceiverOf`). The non-void
`setable_resume::resume` that always throws returns `Fail(NotImplemented)`.

## Model

| member | source | states |
|---|---|---|
| Channel.SendStep | sender_reciever.h:150-162 | send succeeds exactly when the receiver flag is set, and otherwise changes nothing. On success the slot ends empty and the value is appended at the back (empty slot), handed to the waiting continuation with the queue unchanged (Waiting), or swallowed by the no-op (SenderGone). Keeps the mailbox invariant, and what is completed plus what stays queued equals what was queued plus what was accepted |
| Channel.ReceiveStep | sender_reciever.h:37-58 | a non-empty queue yields its oldest value and loses it. With an empty queue the step succeeds exactly when the slot is empty, and then the slot becomes Waiting. A failed step changes nothing. The receiver flag is untouched, the invariant is kept, and the completed value followed by the new queue is the old queue |
| Channel.Step | sender_reciever.h:37-162 | every event (send, receive, either endpoint's destruction, a new receiver) keeps the invariant "Waiting only while the queue is empty" and the FIFO balance. Once the receiver flag is cleared, no event sets it again or accepts a value |
| Channel.RunKeepsOrder | sender_reciever.h:40-159 | over any sequence of events: the values waits were completed with, followed by the values still queued, are the values queued at the start followed by the values accepted, in order. The invariant holds at the end |
| Channel.ReceivedInSendOrder | sender_reciever.h:40-159 | from a new holder, the values that completed waits are a prefix of the accepted sends, in send order (FIFO) |
| Channel.ReceiverGoneIsPermanent | sender_reciever.h:76-93 | after the receiver is destroyed, whatever follows (including creating a new receiver), the flag stays cleared and no sent value is accepted |
| Channel.SenderGoneDrainsThenFails | sender_reciever.h:37-58 | after the sender is gone, the values already queued are still delivered, oldest first, one per receive. The receive after that fails |
| Channel.WaitThenSendDelivers | sender_reciever.h:47-158 | a send completes the wait whether it comes after the receiver started waiting or before, with exactly that value, and leaves the holder as it was |
| Channel.Holder.constructor | sender_reciever.h:63-70 | a new holder has an empty queue, an empty slot and a live receiver flag |
| Channel.Holder.Receive | sender_reciever.h:37-58 | performs ReceiveStep on the holder's state, keeps Valid(), and logs an immediate value as delivered |
| Channel.Sender.constructor | sender_reciever.h:124 | `sender()` makes a sender on a new, fresh holder |
| Channel.Sender.Sharing | sender_reciever.h:126-130 | a sender on a given (present) holder |
| Channel.Sender.MoveFrom | sender_reciever.h:145 | the move constructor takes the holder and leaves the source without one |
| Channel.Sender.MoveAssign | sender_reciever.h:146 | move assignment takes the other's holder and nulls the other, without touching the holder overwritten. Onto itself it changes nothing |
| Channel.Sender.Destroy | sender_reciever.h:132-138 | destruction puts the no-op into the slot (SenderGone), overwriting a waiting continuation. Queue, flag and logs stay the same. A moved-from sender does nothing |
| Channel.Sender.Send | sender_reciever.h:150-162 | performs SendStep on the holder and returns whether the receiver flag was set. Keeps Valid(). Logs the value as sent when it was queued or handed over, and as delivered when it was handed over |
| Channel.Sender.MakeReceiver | sender_reciever.h:169-172 | a new receiver on the sender's own holder |
| Channel.Receiver.constructor | sender_reciever.h:76-80 | a receiver on a given (present) holder |
| Channel.Receiver.MoveFrom | sender_reciever.h:100 | the move constructor takes the holder and leaves the source without one |
| Channel.Receiver.MoveAssign | sender_reciever.h:101 | move assignment takes the other's holder and nulls the other, without clearing the flag of the holder overwritten. Onto itself it changes nothing |
| Channel.Receiver.Destroy | sender_reciever.h:88-93 | destruction clears the receiver flag and nothing else. A moved-from receiver does nothing |
| Channel.Receiver.HasSender | sender_reciever.h:103-108 | false once the sender's no-op is in the slot. True exactly when the slot is empty, so also false while this receiver waits |
| Channel.HasActiveSender | sender_reciever.h:65 | the holder has an active sender exactly when the slot holds neither a waiting receiver's continuation nor the sender's no-op |
| Channel.Sender.HasReceiver | sender_reciever.h:164-167 | true exactly while no receiver on the holder has been destroyed (the `alive_` flag) |
| Channel.Receiver.Await | sender_reciever.h:110-115 | forwards to the holder's receive step, with the same result and effect |
| Channel.NewReceiver | sender_reciever.h:76-80 | fails with ReceiverWithoutHolder exactly when the holder is null. Otherwise returns a fresh receiver on it |
| Channel.ReceiverOf | sender_reciever.h:82-86 | fails with ReceiverWithoutHolder exactly when the sender has no holder. Otherwise returns a fresh receiver on the sender's holder |
| Channel.NewSender | sender_reciever.h:126-130 | fails with SenderWithoutHolder exactly when the holder is null. Otherwise returns a fresh sender on it |
| Channel.MakeSenderReceiverPair | sender_reciever.h:182-185 | a sender and a receiver sharing one new holder, in its initial state |
| SetableResume.Setter.constructor | setable_resume.h:12 | a new setter holds no handler |
| SetableResume.Setter.Register | setable_resume.h:15-17 | registering installs the handler, replacing any earlier one, and completes nothing |
| SetableResume.SetableResume.constructor | setable_resume.h:25 | a new resumer owns a new setter and is not set |
| SetableResume.SetableResume.IsSet | setable_resume.h:43 | true exactly when a handler is registered and not yet consumed |
| SetableResume.SetableResume.Resume | setable_resume.h:29-41 | for a void result: requires is_set, completes the stored handler once with the given arguments, then is not set. For a non-void result: always fails with NotImplemented and changes nothing |
| SetableResume.SetableResume.WeakReference | setable_resume.h:45 | the observer handed out is the resumer's own setter |
| SetableResume.SetableResume.Destroy | setable_resume.h:27 | destruction empties the slot, so an observer sees nothing pending. No handler is completed |
| MoveOnlyFunctions.MoveOnlyFunction.constructor | move_only_function.h:59-62 | default and nullptr construction give an empty function (operator bool is false) |
| MoveOnlyFunctions.MoveOnlyFunction.IsSet | move_only_function.h:107 | `operator bool` is true exactly when a callable is held |
| MoveOnlyFunctions.MoveOnlyFunction.Of | move_only_function.h:70-76 | construction from a callable gives a non-empty function holding it |
| MoveOnlyFunctions.MoveOnlyFunction.MoveFrom | move_only_function.h:65 | move construction transfers the callable and leaves the source empty |
| MoveOnlyFunctions.MoveOnlyFunction.MoveAssign | move_only_function.h:79 | move assignment takes the other's callable and leaves the other empty. Onto itself it changes nothing |
| MoveOnlyFunctions.MoveOnlyFunction.AssignNull | move_only_function.h:85-88 | assigning nullptr empties the function whatever it held |
| MoveOnlyFunctions.MoveOnlyFunction.Assign | move_only_function.h:91-98 | assigning a callable makes the function non-empty, holding that callable |
| MoveOnlyFunctions.MoveOnlyFunction.Call | move_only_function.h:101-104 | calling requires a non-empty function and returns the held callable's result on the arguments |
| MoveOnlyFunctions.MoveOnlyFunction.Swap | move_only_function.h:110 | the two objects exchange their contents (a self-swap changes nothing) |
| MoveOnlyFunctions.Swap | move_only_function.h:114 | the non-member swap exchanges the contents of the two objects |
| MoveOnlyFunctions.SwapTwice | move_only_function.h:110-114 | swapping twice restores both objects |
| UniqueCoroutines.UniqueCoroutine.constructor | unique_coroutine.h:13 | takes sole ownership of the given handle (null allowed). Live frames and destroyed handles are unchanged |
| UniqueCoroutines.UniqueCoroutine.MoveFrom | unique_coroutine.h:25-27 | move construction transfers the handle and leaves the source null. Nothing is destroyed |
| UniqueCoroutines.UniqueCoroutine.MoveAssign | unique_coroutine.h:28-37 | from another object: destroys the handle held (if any) exactly once, takes the other's handle and nulls the other. Onto itself: nothing changes |
| UniqueCoroutines.UniqueCoroutine.Resume | unique_coroutine.h:39-44 | requires a handle. A done coroutine is left as it is, and one not done is resumed. Nothing is destroyed |
| UniqueCoroutines.UniqueCoroutine.IsDone | unique_coroutine.h:46-49 | requires a handle and reports whether its coroutine has finished |
| UniqueCoroutines.UniqueCoroutine.Destroy | unique_coroutine.h:14-18 | destroys the handle held exactly when it is non-null, and only a live one, so never a second time |

## Left out

- reference_guard.h is not part of this model: its point is cross-thread lifetime (atomic counter and flag, blocking wait in the destructor), which a sequential model cannot express.
- shared_coroutine.h is not part of this model: mutex-guarded resumption, shared/weak self-reference and promise hooks; its not-done check is the one `UniqueCoroutine.Resume` models; its null-handle branch and boolean result are not modelled.
- The asio adapters (`resumption`, `awaitable_resumption`, asio_awaitable.h, async_compose_example.h): executor glue over a library not shown. The `asio::post` of a deferred completion is modelled only as the value being logged as delivered. The "No sender or queue empty" exception that `resumption` throws is the `Failed` receipt.
- asio_concepts.h, coroutine_concepts.h and basic_promise.h: compile-time traits and compiler hooks with no runtime behaviour to state.
- The `std::move_only_function` alias branch of move_only_function.h: only the custom implementation is modelled.
- `sender::operator()`, `make_sender` and `make_reciever_from`: each only forwards to `Send`, the `Sender` constructor or `MakeReceiver`, so they have no members of their own.
- The channel carries one value of type `T` per send; the source's `Args...` pack is that value as a tuple.
- The continuation itself (the asio operation `self`) is not stored: `Waiting` records only that a receiver waits. When the sender's destructor overwrites it, the model records no completion, which is what happens to the abandoned operation.
- Concurrency: the holder has no synchronisation in the source and the model is sequential.
- The lifetime of the shared holder and setter (shared_ptr reference counts, weak_ptr expiry) is not modelled. `SetableResume.SetableResume.WeakReference` returns a plain reference and does not expire.
- MoveOnlyFunctions.MoveOnlyFunction.Call: the callable is a pure function value, so a callable with internal state or side effects, or one that throws, is not captured.
- SetableResume.SetableResume.Resume: a handler that re-registers while it is being completed is not modelled (the handler is opaque).
- UniqueCoroutines.UniqueCoroutine.constructor requires that no other `unique_coroutine` already owns the handle. The source relies on its callers for this and does not check it.
- The coroutine frames themselves (creation by the compiler, the body that runs on resume) are external: `Frames.Spawn` makes a new frame, and whether a resume runs the body to completion is the parameter `finishes`.
