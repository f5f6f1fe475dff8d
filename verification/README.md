# coro1 channels, awaiters and task promises in Dafny

This project models the core of coro1, a small C++20 coroutine library. Its centre is
`Channel<ValueType>`, a bounded channel between coroutines. A `co_await channel.write(v)`
suspends on a `WriterAwaiter`, and a `co_await channel.read()` suspends on a `ReaderAwaiter`.
The channel has a buffer of at most `capacity` values and two FIFO lists of waiting writers
and readers. On each operation it does one of these things:

- hands a value straight to the oldest waiting reader;
- buffers it;
- queues the writer;
- promotes the oldest waiting writer's value into a freed buffer slot.

`close` resumes every waiter and drops the buffered values.

Around the channel sit four smaller pieces:

- **`Awaiter<R>`**: the common awaiter. It records the suspended coroutine's handle and the
  result to hand back, and resumes the coroutine either inline or through an executor.
- **`TaskPromise`**: a task's completion cell. It owns the task's executor, stores the task's
  result and notifies completion callbacks.
- **`Result<T>`**: a value/exception cell.
- **The executor**: an abstract FIFO of deferred actions.

Files:

- `results.dfy` (module `Results`): `Result<T>` and `get_or_throw`.
- `runtime.dfy` (module `Runtime`): coroutine handles as opaque tokens, and the executor as a
  queue of submitted jobs.
- `awaiter.dfy` (module `Awaiters`): the class `Awaiter<R>`. It stands for the generic template
  and its `int` and `void` specialisations; `Awaiter<void>::resume` is `ResumeVoid`.
- `channel.dfy` (module `Channels`): the channel and both channel awaiters.
  - Each critical section under `channel_lock` is a function on a `ChannelState`.
  - The class `Channel` is proved to perform exactly those steps.
  - The calls the channel makes into awaiters are kept, in order, as `Wake` events in a log.
  - The proved properties are about this state machine: the buffer bound, the cross-list
    invariant, FIFO delivery and close.
- `task.dfy` (module `Tasks`): `TaskPromise` and its initial awaiter. Invocations of
  completion callbacks are kept in order in the field `calls`.

## Model

| member | source | states |
|---|---|---|
| Results.Default | Result.h:13-27 | A default `Result<T>` holds `T{}` and no exception: `get_or_throw` returns `T{}` and leaves the cell unchanged |
| Results.FromValue | Result.h:15-24 | A cell built from a value returns that value and is left unchanged |
| Results.FromException | Result.h:17-24 | A cell built from an exception throws it; afterwards the cell is a default cell |
| Results.GetOrThrow | Result.h:19-24 | Throws exactly when an exception is stored. The cell left behind keeps its value and holds no exception (the exception is moved out) |
| Results.ExceptionCheckedFirst | Result.h:20-23 | Whatever value is stored, a stored exception is what `get_or_throw` produces |
| Results.RethrowConsumesException | Result.h:21 | After a call that rethrows, a second call on the same cell returns `T{}` |
| Runtime.Executor.Execute | CommonAwaiter.h:62-64 | `execute(f)` queues `f` behind everything submitted earlier and runs nothing |
| Awaiters.Awaiter.constructor | CommonAwaiter.h:52-60 | A new awaiter has a null handle, an empty result and no executor |
| Awaiters.Awaiter.Copy | ChannelAwaiter.h:23-24 | Copying an awaiter copies its handle, result and executor |
| Awaiters.Awaiter.AwaitSuspend | CommonAwaiter.h:19-22 | `await_suspend` records the handle; nothing else changes |
| Awaiters.Awaiter.TakeResult | CommonAwaiter.h:24-27 | `await_resume` returns what `get_or_throw` gives on the stored result, and stores the consumed cell |
| Awaiters.Awaiter.Run | CommonAwaiter.h:30-33 | A dispatched action stores its result, if it carries one, before resuming the recorded handle once |
| Awaiters.Awaiter.Dispatch | CommonAwaiter.h:62-68 | With no executor the action runs now. With an executor it is appended to the executor's queue, and neither the result nor the resume log changes |
| Awaiters.Awaiter.RunPending | CommonAwaiter.h:62-64 | The executor runs only its oldest job, and only when that job is this awaiter's. The job leaves the executor's queue, and this awaiter's oldest deferred action is performed: its result is stored, if it carries one, and the handle is resumed |
| Awaiters.Awaiter.Resume | CommonAwaiter.h:29-34 | `resume(v)` dispatches "store `Result(v)`, then resume", inline or through the executor |
| Awaiters.Awaiter.ResumeUnsafe | CommonAwaiter.h:36-38 | `resume_unsafe` dispatches a resume that never writes the result |
| Awaiters.Awaiter.ResumeException | CommonAwaiter.h:40-45 | `resume_exception(e)` dispatches "store a result holding `e`, then resume" |
| Awaiters.Awaiter.InstallExecutor | CommonAwaiter.h:47-49 | The executor is replaced, and nothing else changes |
| Awaiters.ResumeVoid | CommonAwaiter.h:147-153 | `Awaiter<void>::resume` does nothing when the handle is null or done. Otherwise it dispatches "store the empty `Result<void>`, then resume": inline it stores and resumes at once, and through an executor it only queues the job. Handle and executor are kept in every case |
| Awaiters.ResumeInlineDeliversValue | CommonAwaiter.h:19-34 | With no executor, after suspend and `resume(v)`, the handle is resumed once and `await_resume` returns `v` |
| Awaiters.ResumeThroughExecutorIsDeferred | CommonAwaiter.h:29-34 | With an executor, `resume(v)` only queues one job. Once the executor runs that job, its queue is empty, the handle is resumed and `await_resume` returns `v` |
| Awaiters.ResumeExceptionIsRethrown | CommonAwaiter.h:40-45 | After `resume_exception(e)`, `await_resume` rethrows `e` |
| Awaiters.ResumeUnsafeStoresNothing | CommonAwaiter.h:36-38 | After `resume_unsafe`, the handle is resumed and the result is still empty |
| Awaiters.VoidResumeWithoutHandleIsIgnored | CommonAwaiter.h:147-148 | `Awaiter<void>::resume` before any suspend stores nothing and resumes nothing |
| Channels.CheckOutcome | Channel.h:21-25 | `check_closed` throws exactly when the channel is inactive, and the error is the closed-channel error |
| Channels.Init | Channel.h:124-126 | A new channel is active, empty, satisfies the invariant and has woken nobody |
| Channels.Values | Channel.h:143 | The values of the queued writers, position by position |
| Channels.AfterPushWriter | Channel.h:62-87 | `try_push_writer` on an active channel keeps the invariant: buffer size at most capacity, a waiting reader only with an empty buffer and no waiting writer, a waiting writer only with a full buffer |
| Channels.AfterPushReader | Channel.h:27-60 | `try_push_reader` keeps the invariant. When it takes from the buffer, the size drops by one, or stays the same when a waiting writer is promoted |
| Channels.WithoutKeepsOthers | Channel.h:91 | `list::remove`: the result keeps every element not equal to the removed one and holds no equal one |
| Channels.AfterRemoveWriter | Channel.h:89-93 | `remove_writer` keeps the invariant. The writer is gone, every other writer stays, and nothing else changes |
| Channels.AfterRemoveReader | Channel.h:95-99 | `remove_reader` keeps the invariant. The reader is gone, every other reader stays, and nothing else changes |
| Channels.WriterWakes | Channel.h:154-156 | `clean_up` makes one resume call per queued writer, in list order: the i-th call resumes the i-th writer |
| Channels.ReaderWakes | Channel.h:159-161 | `clean_up` makes one `resume_unsafe` call per queued reader, in list order: the i-th call goes to the i-th reader |
| Channels.AfterCleanUp | Channel.h:151-167 | After `clean_up`, the buffer and both waiter lists are empty |
| Channels.AfterClose | Channel.h:113-118 | After `close`, the channel is inactive and keeps the invariant. The first close empties everything; a later close changes nothing |
| Channels.PushWriterCases | Channel.h:62-87 | The three branches of `try_push_writer`. (1) A waiting reader is popped and handed the value, then the writer is resumed, and the buffer is untouched. (2) If there is room, the value goes to the back of the buffer and the writer is resumed. (3) Otherwise the writer joins the back of the writer list |
| Channels.PushWriterKeepsOrder | Channel.h:62-87 | A written value goes to the oldest waiting reader or to the back of the values in flight. Delivered plus in-flight values grow by exactly that value; served plus waiting readers are unchanged; resumed plus waiting writers grow by exactly that writer |
| Channels.PushReaderCases | Channel.h:27-60 | The three branches of `try_push_reader`. (1) The reader gets the buffer's front; the oldest writer, if any, has its value pushed to the back and is resumed before the reader. (2) With an empty buffer, the reader gets the oldest writer's value, then that writer is resumed. (3) Otherwise the reader joins the back of the reader list and nothing else changes |
| Channels.PushReaderTakesOldest | Channel.h:27-60 | A reader receives the oldest value in flight when there is one, and that value leaves the in-flight sequence. Otherwise the reader only joins the reader list |
| Channels.PushReaderKeepsOrder | Channel.h:27-60 | Delivered plus in-flight values are unchanged; served plus waiting readers grow by exactly this reader; resumed plus waiting writers are unchanged |
| Channels.WithoutDeletesExactlyOne | Channel.h:89-99 | Removing a waiter that is queued once deletes exactly that entry, and the others keep their relative order |
| Channels.WithoutAbsent | Channel.h:89-99 | Removing a waiter that is not queued changes nothing |
| Channels.CloseWakesEveryWaiter | Channel.h:151-167 | The first close resumes every waiting writer, then every waiting reader, in queue order. It hands no value to anybody and leaves nothing in flight |
| Channels.CloseIsIdempotent | Channel.h:113-118 | Closing twice is the same as closing once |
| Channels.RunKeepsOrder | Channel.h:27-87 | Over any sequence of sends and receives on an active channel, the invariant holds, and each pair is, in order, the corresponding items of the run: delivered then in-flight values equal the values sent; served then waiting readers equal the readers that asked; resumed then waiting writers equal the writers that sent |
| Channels.ChannelIsFifo | Channel.h:27-87 | Starting from a new channel of any capacity, the i-th hand-off gives the i-th value sent to the i-th reader that asked |
| Channels.CloseReleasesEveryone | Channel.h:151-167 | Closing after any run resumes exactly the run's writers and exactly its readers, each once, in the order they came |
| Channels.FullBufferPromotesWriter | Channel.h:31-47 | Capacity 2: three sends buffer two values and queue the third writer. One receive then takes the first value, moves the third value into the buffer and resumes the third writer |
| Channels.Channel.constructor | Channel.h:124-126 | A new channel object is in the initial state |
| Channels.Channel.CheckClosed | Channel.h:21-25 | The closed check of the current state |
| Channels.Channel.TryPushReader | Channel.h:27-60 | When inactive, it fails and the state is unchanged. Otherwise the new state is exactly `AfterPushReader`, and the invariant is kept |
| Channels.Channel.TryPushWriter | Channel.h:62-87 | When inactive, it fails and the state is unchanged. Otherwise the new state is exactly `AfterPushWriter`, and the invariant is kept |
| Channels.Channel.RemoveWriter | Channel.h:89-93 | The new state is exactly `AfterRemoveWriter` |
| Channels.Channel.RemoveReader | Channel.h:95-99 | The new state is exactly `AfterRemoveReader` |
| Channels.Channel.Write | Channel.h:102-105 | Fails when closed. Otherwise it returns a new writer awaiter for this channel and value, with an empty base awaiter |
| Channels.Channel.Read | Channel.h:107-110 | Fails when closed. Otherwise it returns a new reader awaiter for this channel, with no target and an empty base awaiter |
| Channels.Channel.Close | Channel.h:113-118 | The new state is exactly `AfterClose`, and the invariant is kept |
| Channels.Channel.CleanUp | Channel.h:151-167 | The two loops and the drain produce exactly `AfterCleanUp`: writer resumes, then unsafe reader resumes, in list order |
| Channels.WriterAwaiter.constructor | ChannelAwaiter.h:21 | Holds the channel and the value, with a new empty base awaiter |
| Channels.WriterAwaiter.Move | ChannelAwaiter.h:23-26 | The new awaiter takes over the channel pointer and the source's pointer is null, so only the new one can deregister |
| Channels.WriterAwaiter.AwaitReady | ChannelAwaiter.h:28 | A writer always suspends |
| Channels.WriterAwaiter.AfterSuspend | ChannelAwaiter.h:30-32 | Registers through `try_push_writer`: the channel's new state is `AfterPushWriter` unless the channel was closed |
| Channels.WriterAwaiter.AwaitSuspend | CommonAwaiter.h:137-140 | The handle is recorded, then `after_suspend` registers the writer |
| Channels.WriterAwaiter.BeforeResume | ChannelAwaiter.h:34-37 | The closed error comes first. Only on success is the channel pointer dropped |
| Channels.WriterAwaiter.AwaitResume | CommonAwaiter.h:142-145 | A writer woken after close fails with the closed error and keeps its channel pointer. Otherwise it drops the pointer and returns what `get_or_throw` gives on the stored result. The base awaiter's handle, executor, pending actions and resume log are unchanged |
| Channels.WriterAwaiter.Destroy | ChannelAwaiter.h:39-41 | An awaiter still holding its channel removes itself from the writer list; otherwise nothing changes |
| Channels.ReaderAwaiter.constructor | ChannelAwaiter.h:47-49 | Holds the channel, with no target and a new empty base awaiter |
| Channels.ReaderAwaiter.Move | ChannelAwaiter.h:51-54 | The channel pointer and `p_value` move over, and both are nulled in the source |
| Channels.ReaderAwaiter.AfterSuspend | ChannelAwaiter.h:68-70 | Registers through `try_push_reader`: the channel's new state is `AfterPushReader` unless the channel was closed |
| Channels.ReaderAwaiter.AwaitSuspend | CommonAwaiter.h:19-22 | The handle is recorded, then `after_suspend` registers the reader |
| Channels.ReaderAwaiter.BeforeResume | ChannelAwaiter.h:72-78 | The closed error comes first. With no target, the pointer is just dropped. With a target, a delivered value is written to it; a stored exception propagates and the target is left unchanged. The target pointer and the base awaiter's handle, executor, pending actions and resume log are unchanged |
| Channels.ReaderAwaiter.AwaitResume | CommonAwaiter.h:24-27 | A reader woken after close fails with the closed error and keeps its channel pointer and its target's contents. Otherwise it returns what `get_or_throw` gives on the delivered result. A delivered value is also written to the target, if set, and the channel pointer is dropped. A delivered exception propagates; with a target set, the pointer and the target's contents are kept. The base awaiter's handle, executor, pending actions and resume log are unchanged |
| Channels.ReaderAwaiter.Destroy | ChannelAwaiter.h:80-82 | An awaiter still holding its channel removes itself from the reader list (cancellation) |
| Channels.RendezvousDeliversValue | Channel.h:67-75 | Capacity 0 with a reader waiting: the writer's value is handed to that reader, then the writer is resumed. Once those calls are performed, the reader's `co_await` returns the value and the writer's returns normally |
| Channels.CloseFailsWaitingWriter | Channel.h:151-167 | Capacity 1: the first value is buffered and its writer returns. The second writer waits until close, which drops the buffer, resumes the second writer, and makes its `co_await` fail with the closed error |
| Channels.CloseFailsWaitingReader | Channel.h:159-161 | A reader waiting on an empty channel is woken by close with `resume_unsafe` and fails with the closed error |
| Channels.DestroyedReaderLeavesQueue | ChannelAwaiter.h:80-82 | A destroyed waiting reader leaves the list, so a later writer on a capacity-0 channel waits and nobody is woken |
| Tasks.Notifications | TaskPromise.h:132-138 | Calling every callback with the same result, one call per callback, in list order |
| Tasks.InitialAwaiter.constructor | TaskPromise.h:34-35 | The initial awaiter holds the executor it was given |
| Tasks.InitialAwaiter.AwaitReady | TaskPromise.h:37 | The task body never starts inline |
| Tasks.InitialAwaiter.AwaitSuspend | TaskPromise.h:39-42 | It submits exactly one job, resuming the task's handle, to the executor and stays suspended |
| Tasks.TaskPromise.constructor | TaskPromise.h:30 | Each promise creates its own new executor and starts with no result, no callbacks and no calls |
| Tasks.TaskPromise.InitialSuspend | TaskPromise.h:32-51 | The initial awaiter uses the promise's own executor |
| Tasks.TaskPromise.AwaitTransform | TaskPromise.h:81-86 | The awaited awaiter gets the promise's executor; nothing else about it changes |
| Tasks.TaskPromise.NotifyCallbacks | TaskPromise.h:132-138 | Each registered callback is called once, in registration order, with the stored result; then the list is empty |
| Tasks.TaskPromise.ReturnValue | TaskPromise.h:95-100 | Stores `Result(v)`, notifies every registered callback with it and clears the list |
| Tasks.TaskPromise.UnhandledException | TaskPromise.h:88-93 | Stores a result holding the exception, notifies every registered callback with it and clears the list |
| Tasks.TaskPromise.OnCompleted | TaskPromise.h:111-120 | After completion, the callback is called at once with the stored result and the list does not grow. Before completion, the callback joins the end of the list |
| Tasks.TaskPromise.GetResultAsWritten | TaskPromise.h:102-109 | As written: `get_or_throw` runs on the stored result, so the stored cell is replaced by the consumed one |
| Tasks.TaskPromise.GetResult | TaskPromise.h:102-109 | Corrected: it throws exactly when the stored result holds an exception, and then throws that exception; otherwise it returns the stored value. The promise is unchanged |
| Tasks.ReturnVoid | TaskPromise.h:224-229 | `return_void` stores the empty `Result<void>` and notifies every registered callback with it |
| Tasks.BodyRunsOnItsExecutor | TaskPromise.h:30-51 | The body does not start inline; its start is the first job on the promise's executor. A resume on an awaiter the body awaited becomes the second job there and stores nothing yet |
| Tasks.NotifiesEachCallbackOnce | TaskPromise.h:95-138 | Callbacks registered before completion get exactly one call each, in order, with the result. The list ends empty, and a late subscriber is called once at once with the same result |
| Tasks.VoidTaskCompletes | TaskPromise.h:208-240 | For a void task, a callback registered early is called once with the empty result, and `get_result` returns normally |
| Tasks.FailureReplayedToEveryObserver | TaskPromise.h:88-120 | With the corrected `get_result`, a failed task rethrows its exception on every `get_result`, and a late callback receives a result that throws it |
| Tasks.GetResultAsWrittenForgetsFailure | TaskPromise.h:102-120 | With `get_result` as written, the second `get_result` after a failure returns `T{}`, and a late callback receives a result that does not throw |

## Left out

- Mutexes, atomics and the condition variables are not modelled. Each locked section is one atomic step, and the compare-and-set in `close` is a sequential check-and-set. Interleavings between a section and the resume calls made after `unlock` are not modelled.
- The channel records the resume calls it makes, as `Wake` events, instead of performing them on the awaiters. The scenario methods perform them explicitly. What such a call does to an awaiter is modelled by `Awaiters.Awaiter`.
- Resume calls from `clean_up` happen while the lock is held, and callbacks run under `completion_lock`. These are modelled in the order the code makes them, with no claim about deadlock.
- `final_suspend`, `get_return_object`, and the `await_transform` overloads for tasks and durations are not modelled. Task.h, TaskAwaiter.h and SleepAwaiter.h are not part of this model. Scheduler.h and the executor implementations in Executor.h are not part of this model.
- `ReaderAwaiter::await_ready` is not modelled because it calls `try_read`, which the channel does not define. A reader always suspends.
- `Channel::is_active` is not modelled: it is the field `active` itself.
- In the source, references to `front()` are taken before `pop_front()`. They are modelled as "take the front element, then pop".
- `write`/`read` pass `shared_from_this()` where the awaiter constructors take a raw pointer. They are modelled as awaiters that refer to this channel.
- Channels.Channel.constructor: the capacity is a `nat`; the source's signed `int` capacity, including negative values, is not modelled.
- Awaiters.Awaiter.TakeResult: requires a stored result. The source dereferences an empty `optional` (undefined) after `resume_unsafe` unless `before_resume` throws first, and nothing past that point is modelled.
- Awaiters.Awaiter.Run: requires a recorded handle, because resuming a null handle is undefined.
- Awaiters.ResumeVoid: `handle.done()` is a parameter, because the state of a coroutine frame is outside the model.
- Tasks.TaskPromise.GetResult: requires a stored result. Blocking until one arrives, and the `if`-not-`while` wait, are not modelled.
- Tasks.TaskPromise.AwaitTransform: it installs the executor into the given awaiter and returns that same object. The source returns a copy.
- Tasks.TaskPromise.ReturnValue: nothing prevents a second completion, and the model does not add a guard.
- Runtime.Executor.Execute: jobs are type-erased. What a deferred awaiter action does is kept by its awaiter (`pending`). The executor's worker appears only as `Runtime.Executor.Next`, which takes the oldest job off the queue; `Awaiters.Awaiter.RunPending` runs an awaiter's job that way. Running the task body after the initial job is not modelled.
- Exceptions are compared by message (`Exception(what)`). `std::exception_ptr` identity is not modelled.

## Findings

| source | as written | input that shows it | evidently intended | confidence | as-written member | corrected member |
|---|---|---|---|---|---|---|
| TaskPromise.h:108 | `get_result` (here and in the `void` specialisation at line 214) calls `get_or_throw` on the stored result, which moves the exception out (Result.h:21, 64). | A task body throws `e`, then `get_result` is called twice. The second call returns `T{}` instead of rethrowing. A callback registered by `on_completed` afterwards receives a result that does not throw. | A failed task reports its exception to every observer, every time. | not executed; relies on a moved-from `exception_ptr` being null | Tasks.GetResultAsWrittenForgetsFailure | Tasks.FailureReplayedToEveryObserver |
