# Mailbox layer of the `messaging` library, in Dafny

This project models the mailbox layer of a small active-object messaging library (`queue.hpp`). Each actor owns a
`receiver`, and the receiver owns a `queue`: an unbounded FIFO of type-erased messages. Other actors hold
`sender` handles to that queue and push into it. The owner calls `receiver::wait()` to get a `dispatcher`. When
that dispatcher is destroyed without having been chained, it pops and dispatches messages until the library's
`close_queue` message arrives, which it signals by throwing.

The model has two modules:

- `Messaging` (`messaging.dfy`) holds the source's entities:
  - `Payload` and `WrappedMessage` stand for the message types and the type-erased queue entry.
  - `Queue`, `Sender`, `Dispatcher` and `Receiver` are classes whose methods update their fields in place.
  - `Dispatcher.Dispatch` is a pure function.
  - `Drain` is the specification of the drain loop, with lemmas about it.
- `MailboxProperties` (`properties.dfy`) holds client-level properties: the FIFO round trip, a wait ended by the
  close message, a null sender, and the two move constructors compared.

How C++ mechanisms are rendered:

- The `close_queue` exception is a returned value: `DispatchResult.ThrowsCloseQueue` and `Exit.CloseQueueThrown`.
- `wait_and_pop` blocks on an empty queue. In the model that is a precondition: the queue must not be empty.
- The drain loop `while (1)` is modelled up to the point where it would block for ever on an empty queue. At that
  point it returns `Exit.BlockedForever`, having discarded every message it popped.

The library's design describes a chain of typed handlers built with `handle`. The code in queue.hpp does not
implement one. `TemplateDispatcher` is empty, and `dispatcher::handle` constructs it with arguments it has no
constructor for. The model follows the code, so the only message a dispatcher recognises is `close_queue`.

## Model

| member | source | states |
|---|---|---|
| `Messaging.Queue.constructor` | queue.hpp:56-59 | a new queue is empty |
| `Messaging.Queue.Push` | queue.hpp:34-40 | appends exactly one wrapper of the message at the tail; the length grows by one and the earlier entries, in order, are unchanged |
| `Messaging.Queue.WaitAndPop` | queue.hpp:42-54 | needs a non-empty queue (the source waits until it is); returns the former head and leaves exactly the former tail |
| `Messaging.Sender.constructor` | queue.hpp:81-82 | a default-constructed sender has no target queue |
| `Messaging.Sender.Over` | queue.hpp:67-70 | a sender built on a queue targets that queue |
| `Messaging.Sender.Send` | queue.hpp:72-79 | with a target, has exactly the effect of `push` on it; with no target, its frame is empty, so it changes no queue |
| `Messaging.Dispatcher.constructor` | queue.hpp:104-107 | the new dispatcher is over the given queue and is not chained |
| `Messaging.Dispatcher.Move` | queue.hpp:109-115 | as written: the new dispatcher takes the source's queue and flag, and the source's flag becomes false |
| `Messaging.Dispatcher.MoveHandingOff` | queue.hpp:113-114 | as the comment intends: like `Move`, but the source ends up chained, so it will not drain |
| `Messaging.Dispatcher.Destroy` | queue.hpp:121-127 | drains if and only if the dispatcher is not chained; a chained one returns normally and leaves the queue unchanged |
| `Messaging.Dispatcher.WaitAndDispatch` | queue.hpp:147-154 | the loop's exit and the queue it leaves are those of `Drain` on the old queue; it never ends normally |
| `Messaging.Dispatcher.Dispatch` | queue.hpp:157-164 | signals close exactly when the message is `close_queue`; for every other message it returns `false`; it touches no state |
| `Messaging.Receiver.constructor` | queue.hpp:187-189 | the receiver owns a fresh, empty queue |
| `Messaging.Receiver.AsSender` | queue.hpp:176-179 | the sender handed out targets the receiver's own queue |
| `Messaging.Receiver.Wait` | queue.hpp:182-185 | returns a fresh dispatcher over the receiver's own queue that is not chained, so it drains when destroyed |
| `Messaging.DrainStopsAtFirstClose` | queue.hpp:147-154 | the drain consumes every message up to and including the first `close_queue`, discards the others, and leaves exactly the messages after it |
| `Messaging.DrainWithoutCloseBlocks` | queue.hpp:42-54 | with no `close_queue` queued, the drain discards every message and then waits for ever on the empty queue |
| `Messaging.DrainEndsIffClose` | queue.hpp:147-164 | the drain ends by the close exception if and only if the queue holds a `close_queue`; otherwise it waits for ever and the queue is left empty |
| `Messaging.DrainKeepsLaterMessages` | queue.hpp:147-154 | once a `close_queue` is queued, anything appended after it survives the drain, in order, behind what preceded it |
| `MailboxProperties.SendAll` | queue.hpp:72-79 | sending a list of messages through one sender appends their wrappers to its target in send order |
| `MailboxProperties.PushAllThenPopAll` | queue.hpp:35-53 | FIFO round trip: pushing m1..mn into an empty queue and popping n times gives wrappers whose payloads are m1..mn, in order, and leaves the queue empty |
| `MailboxProperties.CloseEndsWait` | queue.hpp:176-185 | sending messages, then `close_queue`, then more messages to a receiver: the dispatcher from `wait()` ends its drain by the close exception, and exactly the later messages remain, in order |
| `MailboxProperties.NullSendChangesNothing` | queue.hpp:72-79 | sending through a default-constructed sender leaves any queue unchanged |
| `MailboxProperties.MovedFromDispatcherAlsoDrains` | queue.hpp:109-115 | with the move constructor as written, both the moved-to and the moved-from dispatcher drain: with one `close_queue` queued, the first destructor consumes it and the second waits for ever |
| `MailboxProperties.HandOffLeavesOneDrainer` | queue.hpp:113-114 | with the intended move constructor, only the moved-to dispatcher drains; the moved-from one's destructor returns normally |

## Left out

- Locking and blocking (queue.hpp:37-39, 44-50): the mutex and the condition variable serialise concurrent
  access and wake waiters, which this model leaves out because it has no threads. A single pop requires a
  non-empty queue. The drain loop ends with `BlockedForever` where the source would wait for another thread to push.
- Type erasure (queue.hpp:11-29, 159): `shared_ptr`, the virtual destructor of `message_base` and the
  `dynamic_cast` in `dispatch` are replaced by the closed datatype `Payload`. A message of any type other than
  `close_queue` is a `User` payload.
- The C++ exception and `noexcept(false)` on the destructor (queue.hpp:121, 161): a thrown `close_queue` is the
  returned value `CloseQueueThrown`. Unwinding through the caller is not modelled.
- A null queue pointer given to `dispatcher`'s constructor (queue.hpp:104-107): the model's dispatcher always has a
  queue, as every dispatcher the source builds does (queue.hpp:184). The source would dereference null while draining.
- Copying a `sender` (an implicit copy of a pointer): in the model, senders are shared object references. Both
  forms target the same queue.
- `TemplateDispatcher` and `dispatcher::handle` (queue.hpp:85-94, 130-135): the first is an empty class and the
  second builds it with arguments it has no constructor for, so no handler chaining exists to model.
- main.cpp is not part of this model. It is a console input loop that starts and joins threads, and the ATM,
  bank and interface actors and their message types are defined in files that are not part of this model.

## Findings

| source | as written | input that shows it | evidently intended | confidence | as-written member | corrected member |
|---|---|---|---|---|---|---|
| queue.hpp:113-114 | the move constructor sets `other.chained_ = false`, so the moved-from dispatcher still drains when destroyed, though the comment says it "must not now wait" | a receiver's queue holding one `close_queue`; a dispatcher from `wait()` is moved, then both are destroyed: the first destructor consumes the close and the second waits for ever | `other.chained_ = true`, so that only the moved-to dispatcher drains | medium, not executed | `MailboxProperties.MovedFromDispatcherAlsoDrains` | `MailboxProperties.HandOffLeavesOneDrainer` |

No other member of the model moves a dispatcher. Under C++17, `receiver::wait()` returns its dispatcher without a move, so the
rest of the model is the same under either move constructor.
