/** The suspension protocol: `Awaiter<R>` and its `int` and `void` specialisations.

    An awaiter remembers the handle of the coroutine that suspended on it, the outcome it
    will hand back from `await_resume`, and the executor (if any) through which it resumes
    that coroutine. `Awaiter<int>` repeats the generic awaiter with `R = int`; `Awaiter<void>`
    is the generic awaiter at `()`, except for its guarded `resume()`, which is `ResumeVoid`
    below. The virtual hooks `after_suspend`/`before_resume` are no-ops in the generic awaiter;
    the channel awaiters that override them are in module `Channels`. */
module Awaiters {
  import opened Results
  import opened Runtime

  /** What a lambda passed to `dispatch` does when it runs: store a result (or not), then
      resume the recorded handle. */
  datatype Action<R> = StoreAndResume(stored: Result<R>) | ResumeOnly

  class Awaiter<R> {
    /** `_handle`; `None` is the null handle. */
    var handle: Option<Handle>
    /** `_result`, an `std::optional<Result<R>>`. */
    var result: Option<Result<R>>
    /** `_executor`; `null` means actions run inline. */
    var executor: Executor?
    /** Actions this awaiter handed to its executor that have not run yet, oldest first
        (the lambdas capture `this`, so they act on this awaiter when the executor runs them). */
    var pending: seq<Action<R>>
    /** Every `_handle.resume()` performed by this awaiter's actions, in order. */
    var resumed: seq<Handle>

    constructor ()
      ensures handle == None && result == None && executor == null
      ensures pending == [] && resumed == []
    {
      handle := None;
      result := None;
      executor := null;
      pending := [];
      resumed := [];
    }

    /** The copy constructor `Awaiter(other)` used by the channel awaiters' move constructors:
        handle, result and executor are copied; lambdas already queued still act on `other`. */
    constructor Copy(other: Awaiter<R>)
      ensures handle == other.handle && result == other.result && executor == other.executor
      ensures pending == [] && resumed == []
    {
      handle := other.handle;
      result := other.result;
      executor := other.executor;
      pending := [];
      resumed := [];
    }

    /** `await_suspend(handle)` of the generic awaiter: record the handle; `after_suspend` is a
        no-op here. */
    method AwaitSuspend(h: Handle)
      modifies this
      ensures handle == Some(h)
      ensures result == old(result) && executor == old(executor)
      ensures pending == old(pending) && resumed == old(resumed)
    {
      handle := Some(h);
    }

    /** `_result->get_or_throw()`; also the generic `await_resume`, whose `before_resume` is a
        no-op. Dereferencing an empty `_result` is undefined, so a result must be stored. */
    method TakeResult() returns (o: Outcome<R>)
      requires result.Some?
      modifies this
      ensures o == GetOrThrow(old(result).value).0
      ensures result == Some(GetOrThrow(old(result).value).1)
      ensures handle == old(handle) && executor == old(executor)
      ensures pending == old(pending) && resumed == old(resumed)
    {
      var p := GetOrThrow(result.value);
      o := p.0;
      result := Some(p.1);
    }

    /** Running one dispatched lambda: store the result it carries, then resume the handle.
        The handle is read when the lambda runs; resuming a null handle is undefined. */
    method Run(a: Action<R>)
      requires handle.Some?
      modifies this
      ensures handle == old(handle) && executor == old(executor) && pending == old(pending)
      ensures result == (if a.StoreAndResume? then Some(a.stored) else old(result))
      ensures resumed == old(resumed) + [handle.value]
    {
      if a.StoreAndResume? {
        result := Some(a.stored);
      }
      resumed := resumed + [handle.value];
    }

    /** `dispatch(f)`: with no executor installed `f` runs now; otherwise it is handed to
        `execute` and nothing else changes until the executor runs it. */
    method Dispatch(a: Action<R>)
      requires executor == null ==> handle.Some?
      modifies this, executor
      ensures handle == old(handle) && executor == old(executor)
      ensures old(executor) == null ==>
                && result == (if a.StoreAndResume? then Some(a.stored) else old(result))
                && resumed == old(resumed) + [handle.value]
                && pending == old(pending)
      ensures old(executor) != null ==>
                && executor.jobs == old(executor.jobs) + [RunAction(this)]
                && pending == old(pending) + [a]
                && result == old(result) && resumed == old(resumed)
    {
      if executor != null {
        executor.Execute(RunAction(this));
        pending := pending + [a];
      } else {
        Run(a);
      }
    }

    /** The executor running its oldest job, when that job is a lambda this awaiter handed to
        it: the job leaves the executor's queue and this awaiter's oldest action is performed. */
    method RunPending()
      requires executor != null && executor.jobs != [] && executor.jobs[0] == RunAction(this)
      requires pending != [] && handle.Some?
      modifies this, executor
      ensures handle == old(handle) && executor == old(executor)
      ensures executor.jobs == old(executor.jobs)[1..]
      ensures pending == old(pending)[1..]
      ensures result == (if old(pending)[0].StoreAndResume? then Some(old(pending)[0].stored) else old(result))
      ensures resumed == old(resumed) + [handle.value]
    {
      var job := executor.Next();
      var a := pending[0];
      pending := pending[1..];
      Run(a);
    }

    /** `resume(value)`: the dispatched lambda stores `Result(value)` before resuming. */
    method Resume(v: R)
      requires executor == null ==> handle.Some?
      modifies this, executor
      ensures handle == old(handle) && executor == old(executor)
      ensures old(executor) == null ==>
                result == Some(FromValue(v)) && resumed == old(resumed) + [handle.value] && pending == old(pending)
      ensures old(executor) != null ==>
                && executor.jobs == old(executor.jobs) + [RunAction(this)]
                && pending == old(pending) + [StoreAndResume(FromValue(v))]
                && result == old(result) && resumed == old(resumed)
    {
      Dispatch(StoreAndResume(FromValue(v)));
    }

    /** `resume_unsafe()`: resumes without writing `_result`. */
    method ResumeUnsafe()
      requires executor == null ==> handle.Some?
      modifies this, executor
      ensures handle == old(handle) && executor == old(executor) && result == old(result)
      ensures old(executor) == null ==> resumed == old(resumed) + [handle.value] && pending == old(pending)
      ensures old(executor) != null ==>
                && executor.jobs == old(executor.jobs) + [RunAction(this)]
                && pending == old(pending) + [ResumeOnly] && resumed == old(resumed)
    {
      Dispatch(ResumeOnly);
    }

    /** `resume_exception(e)`: the dispatched lambda stores `Result<R>(e)`, which holds `R{}`
        (passed as `zero`) beside the exception. */
    method ResumeException(e: Exception, zero: R)
      requires executor == null ==> handle.Some?
      modifies this, executor
      ensures handle == old(handle) && executor == old(executor)
      ensures old(executor) == null ==>
                result == Some(FromException(e, zero)) && resumed == old(resumed) + [handle.value] && pending == old(pending)
      ensures old(executor) != null ==>
                && executor.jobs == old(executor.jobs) + [RunAction(this)]
                && pending == old(pending) + [StoreAndResume(FromException(e, zero))]
                && result == old(result) && resumed == old(resumed)
    {
      Dispatch(StoreAndResume(FromException(e, zero)));
    }

    /** `install_executor(executor)`: every later dispatch goes through `e`. */
    method InstallExecutor(e: Executor?)
      modifies this
      ensures executor == e
      ensures handle == old(handle) && result == old(result)
      ensures pending == old(pending) && resumed == old(resumed)
    {
      executor := e;
    }
  }

  /** `Awaiter<void>::resume()`: a no-op when the handle is null or its coroutine is done
      (`handleDone`, the state of a coroutine frame, which is outside this model); otherwise
      dispatch a lambda that stores `Result<void>()` and resumes. */
  method ResumeVoid(a: Awaiter<()>, handleDone: bool)
    modifies a, a.executor
    ensures a.handle == old(a.handle) && a.executor == old(a.executor)
    ensures old(a.handle).None? || handleDone ==>
              a.result == old(a.result) && a.resumed == old(a.resumed) && a.pending == old(a.pending)
              && (old(a.executor) != null ==> a.executor.jobs == old(a.executor.jobs))
    ensures old(a.handle).Some? && !handleDone && old(a.executor) == null ==>
              a.result == Some(Default(())) && a.resumed == old(a.resumed) + [a.handle.value]
              && a.pending == old(a.pending)
    ensures old(a.handle).Some? && !handleDone && old(a.executor) != null ==>
              && a.executor.jobs == old(a.executor.jobs) + [RunAction(a)]
              && a.pending == old(a.pending) + [StoreAndResume(Default(()))]
              && a.result == old(a.result) && a.resumed == old(a.resumed)
  {
    if a.handle.None? || handleDone {
      return;
    }
    a.Dispatch(StoreAndResume(Default(())));
  }

  // Properties of whole suspend/resume exchanges, each on a fresh awaiter.

  /** With no executor, `resume(v)` resumes the recorded handle at once and `await_resume`
      then returns `v`. */
  method ResumeInlineDeliversValue<R>(h: Handle, v: R) returns (o: Outcome<R>, woken: seq<Handle>)
    ensures o == Returned(v)
    ensures woken == [h]
  {
    var a := new Awaiter<R>();
    a.AwaitSuspend(h);
    a.Resume(v);
    woken := a.resumed;
    o := a.TakeResult();
  }

  /** With an executor installed, `resume(v)` changes nothing but the executor's queue; once
      the executor runs the queued action, `await_resume` returns `v`. */
  method ResumeThroughExecutorIsDeferred<R>(h: Handle, v: R)
    returns (before: Option<Result<R>>, wokenBefore: seq<Handle>, jobs: seq<Job>, o: Outcome<R>, woken: seq<Handle>, left: seq<Job>)
    ensures before == None && wokenBefore == []
    ensures |jobs| == 1 && jobs[0].RunAction?
    ensures o == Returned(v) && woken == [h] && left == []
  {
    var e := new Executor();
    var a := new Awaiter<R>();
    a.InstallExecutor(e);
    a.AwaitSuspend(h);
    a.Resume(v);
    before, wokenBefore, jobs := a.result, a.resumed, e.jobs;
    a.RunPending();
    woken, left := a.resumed, e.jobs;
    o := a.TakeResult();
  }

  /** `resume_exception(e)` makes `await_resume` rethrow `e`. */
  method ResumeExceptionIsRethrown<R>(h: Handle, e: Exception, zero: R) returns (o: Outcome<R>)
    ensures o == Thrown(e)
  {
    var a := new Awaiter<R>();
    a.AwaitSuspend(h);
    a.ResumeException(e, zero);
    o := a.TakeResult();
  }

  /** `resume_unsafe()` resumes the handle and leaves `_result` empty. */
  method ResumeUnsafeStoresNothing<R>(h: Handle) returns (stored: Option<Result<R>>, woken: seq<Handle>)
    ensures stored == None && woken == [h]
  {
    var a := new Awaiter<R>();
    a.AwaitSuspend(h);
    a.ResumeUnsafe();
    stored, woken := a.result, a.resumed;
  }

  /** `Awaiter<void>::resume()` before any `await_suspend` (null handle) does nothing. */
  method VoidResumeWithoutHandleIsIgnored(handleDone: bool) returns (stored: Option<Result<()>>, woken: seq<Handle>)
    ensures stored == None && woken == []
  {
    var a := new Awaiter<()>();
    ResumeVoid(a, handleDone);
    stored, woken := a.result, a.resumed;
  }
}
