/** What the core takes from its surroundings: coroutine handles and executors.

    A `std::coroutine_handle<>` is an opaque token here. An executor (`AbstractExecutor`,
    whose implementation is not part of this model) is a FIFO of deferred actions: `execute`
    appends an action and returns without running it. */
module Runtime {

  /** An opaque coroutine handle. */
  datatype Handle = Handle(id: nat)

  /** A deferred action handed to an executor.
      - `ResumeCoroutine(h)`: the lambda `[handle] { handle.resume(); }` of a task's initial awaiter.
      - `RunAction(owner)`: a lambda that captured the awaiter `owner`; what it does is kept
        by that awaiter (see `Awaiters.Awaiter.pending`). */
  datatype Job = ResumeCoroutine(handle: Handle) | RunAction(owner: object)

  class Executor {
    /** Actions submitted and not yet run, oldest first. */
    var jobs: seq<Job>

    constructor ()
      ensures jobs == []
    {
      jobs := [];
    }

    /** `execute(f)`: queue `f` behind everything submitted before it. */
    method Execute(job: Job)
      modifies this
      ensures jobs == old(jobs) + [job]
    {
      jobs := jobs + [job];
    }

    /** The executor's worker taking its oldest job off the queue to run it. */
    method Next() returns (job: Job)
      requires jobs != []
      modifies this
      ensures job == old(jobs)[0] && jobs == old(jobs)[1..]
    {
      job := jobs[0];
      jobs := jobs[1..];
    }
  }
}
