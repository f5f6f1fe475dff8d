/** The completion cell of a task: `TaskPromise<ResultType, Executor>` and its `void`
    specialisation.

    A promise owns one executor, created with it; its initial awaiter hands the start of the
    task body to that executor, and every awaiter the body `co_await`s is given the same
    executor. When the body finishes, the promise stores the result and calls each registered
    completion callback once, in registration order, with that result. The callbacks are
    opaque functions here, known by identity; what the promise does with them is recorded in
    the field `calls`. `TaskPromise<void>` is the generic promise at `()`, with `return_void`
    as `ReturnVoid` below. */
module Tasks {
  import opened Results
  import opened Runtime
  import opened Awaiters

  /** A registered `std::function<void(Result<T>)>`. */
  datatype Callback = Callback(id: nat)

  /** One invocation of a callback, with the result it was passed. */
  datatype Call<T> = Call(callback: Callback, argument: Result<T>)

  /** Calling each callback of `cbs` with `r`, in list order. */
  function Notifications<T>(cbs: seq<Callback>, r: Result<T>): (calls: seq<Call<T>>)
    ensures |calls| == |cbs|
    ensures forall i :: 0 <= i < |cbs| ==> calls[i] == Call(cbs[i], r)
  {
    if cbs == [] then [] else [Call(cbs[0], r)] + Notifications(cbs[1..], r)
  }

  /** The awaiter `initial_suspend` returns. */
  class InitialAwaiter {
    const executor: Executor

    constructor (executor: Executor)
      ensures this.executor == executor
    {
      this.executor := executor;
    }

    /** The body never starts inline. */
    method AwaitReady() returns (ready: bool)
      ensures !ready
    {
      ready := false;
    }

    /** Submit "resume `h`" to the executor and stay suspended. */
    method AwaitSuspend(h: Handle) returns (suspend: bool)
      modifies executor
      ensures suspend
      ensures executor.jobs == old(executor.jobs) + [ResumeCoroutine(h)]
    {
      executor.Execute(ResumeCoroutine(h));
      suspend := true;
    }
  }

  class TaskPromise<T> {
    /** `T{}`, the value a `Result<T>` built from an exception holds beside it. */
    const zero: T
    /** `executor_`, made once by the constructor and shared with every awaiter. */
    const executor: Executor
    /** `result`; `None` until the body returns or throws. */
    var result: Option<Result<T>>
    /** `completion_callbacks`, in registration order. */
    var callbacks: seq<Callback>
    /** Every callback invocation made so far, in order. */
    var calls: seq<Call<T>>

    constructor (zero: T)
      ensures this.zero == zero
      ensures fresh(executor) && executor.jobs == []
      ensures result == None && callbacks == [] && calls == []
    {
      this.zero := zero;
      executor := new Executor();
      result := None;
      callbacks := [];
      calls := [];
    }

    /** `initial_suspend()`: an awaiter over this promise's executor. */
    method InitialSuspend() returns (a: InitialAwaiter)
      ensures fresh(a) && a.executor == executor
    {
      a := new InitialAwaiter(executor);
    }

    /** `await_transform(awaiter)`: install this promise's executor into the awaiter. */
    method AwaitTransform<R>(a: Awaiter<R>) returns (b: Awaiter<R>)
      modifies a
      ensures b == a && a.executor == executor
      ensures a.handle == old(a.handle) && a.result == old(a.result)
      ensures a.pending == old(a.pending) && a.resumed == old(a.resumed)
    {
      a.InstallExecutor(executor);
      b := a;
    }

    /** `notify_callbacks()`: call each registered callback with the stored result, in order,
        then clear the list. */
    method NotifyCallbacks()
      requires result.Some?
      modifies this
      ensures result == old(result) && callbacks == []
      ensures calls == old(calls) + Notifications(old(callbacks), result.value)
    {
      var value := result.value;
      var i := 0;
      while i < |callbacks|
        invariant 0 <= i <= |callbacks|
        invariant callbacks == old(callbacks) && result == old(result)
        invariant calls == old(calls) + Notifications(callbacks[..i], value)
      {
        assert callbacks[..i + 1] == callbacks[..i] + [callbacks[i]];
        NotificationsAppend(callbacks[..i], [callbacks[i]], value);
        calls := calls + [Call(callbacks[i], value)];
        i := i + 1;
      }
      assert callbacks[..i] == callbacks;
      callbacks := [];
    }

    /** `return_value(value)`: store `Result(value)`, then notify. */
    method ReturnValue(v: T)
      modifies this
      ensures result == Some(FromValue(v)) && callbacks == []
      ensures calls == old(calls) + Notifications(old(callbacks), FromValue(v))
    {
      result := Some(FromValue(v));
      NotifyCallbacks();
    }

    /** `unhandled_exception()`: store a result holding the current exception `e`, then notify. */
    method UnhandledException(e: Exception)
      modifies this
      ensures result == Some(FromException(e, zero)) && callbacks == []
      ensures calls == old(calls) + Notifications(old(callbacks), FromException(e, zero))
    {
      result := Some(FromException(e, zero));
      NotifyCallbacks();
    }

    /** `on_completed(func)`: once a result is stored, call `func` with it at once and leave the
        list alone; before that, append `func` to the list. */
    method OnCompleted(cb: Callback)
      modifies this
      ensures result == old(result)
      ensures old(result).Some? ==> calls == old(calls) + [Call(cb, result.value)] && callbacks == old(callbacks)
      ensures old(result).None? ==> callbacks == old(callbacks) + [cb] && calls == old(calls)
    {
      if result.Some? {
        var value := result.value;
        calls := calls + [Call(cb, value)];
      } else {
        callbacks := callbacks + [cb];
      }
    }

    /** `get_result()` as written: `get_or_throw` runs on the stored result itself, so a stored
        exception is moved out by the first call that rethrows it. */
    method GetResultAsWritten() returns (o: Outcome<T>)
      requires result.Some?
      modifies this
      ensures o == GetOrThrow(old(result).value).0
      ensures result == Some(GetOrThrow(old(result).value).1)
      ensures callbacks == old(callbacks) && calls == old(calls)
    {
      var p := GetOrThrow(result.value);
      o := p.0;
      result := Some(p.1);
    }

    /** `get_result()` as intended: the stored value, or the stored exception rethrown, every
        time; the promise is not changed. (Waiting for the result is not modelled: one must
        be stored.) */
    method GetResult() returns (o: Outcome<T>)
      requires result.Some?
      ensures o.Thrown? <==> result.value.exception.Some?
      ensures o.Thrown? ==> o.exception == result.value.exception.value
      ensures o.Returned? ==> o.value == result.value.value
    {
      o := GetOrThrow(result.value).0;
    }
  }

  lemma {:induction false} NotificationsAppend<T>(a: seq<Callback>, b: seq<Callback>, r: Result<T>)
    ensures Notifications(a + b, r) == Notifications(a, r) + Notifications(b, r)
  {
  }

  /** `TaskPromise<void>::return_void()`: store the empty `Result<void>`, then notify. */
  method ReturnVoid(p: TaskPromise<()>)
    modifies p
    ensures p.result == Some(Default(())) && p.callbacks == []
    ensures p.calls == old(p.calls) + Notifications(old(p.callbacks), Default(()))
  {
    p.ReturnValue(());
  }

  // Whole lifecycles of fresh promises.

  /** The task body starts only when the executor runs the job the initial awaiter submitted,
      and every awaiter the body awaits resumes it through that same executor. */
  method BodyRunsOnItsExecutor<R>(h: Handle, v: R) returns (ready: bool, jobs: seq<Job>, stored: Option<Result<R>>)
    ensures !ready
    ensures |jobs| == 2 && jobs[0] == ResumeCoroutine(h) && jobs[1].RunAction?
    ensures stored == None
  {
    var p := new TaskPromise<()>(());
    var start := p.InitialSuspend();
    ready := start.AwaitReady();
    var suspended := start.AwaitSuspend(h);
    var a := new Awaiter<R>();
    a := p.AwaitTransform(a);
    a.AwaitSuspend(h);
    a.Resume(v);
    jobs, stored := p.executor.jobs, a.result;
  }

  /** Callbacks registered before completion are each called once, in registration order,
      with the stored result, and the list is then empty; a callback registered afterwards is
      called at once with the same result. */
  method NotifiesEachCallbackOnce<T>(cbs: seq<Callback>, late: Callback, v: T, zero: T)
    returns (calls: seq<Call<T>>, left: seq<Callback>)
    ensures calls == Notifications(cbs, FromValue(v)) + [Call(late, FromValue(v))]
    ensures left == []
  {
    var p := new TaskPromise<T>(zero);
    var i := 0;
    while i < |cbs|
      invariant 0 <= i <= |cbs|
      invariant p.result == None && p.calls == [] && p.callbacks == cbs[..i]
    {
      p.OnCompleted(cbs[i]);
      assert cbs[..i + 1] == cbs[..i] + [cbs[i]];
      i := i + 1;
    }
    assert cbs[..i] == cbs;
    p.ReturnValue(v);
    p.OnCompleted(late);
    calls, left := p.calls, p.callbacks;
  }

  /** `TaskPromise<void>`: a callback registered before `return_void` is called once with the
      empty result, and `get_result` returns normally. */
  method VoidTaskCompletes(cb: Callback) returns (o: Outcome<()>, calls: seq<Call<()>>)
    ensures o == Returned(())
    ensures calls == [Call(cb, Default(()))]
  {
    var p := new TaskPromise<()>(());
    p.OnCompleted(cb);
    ReturnVoid(p);
    o := p.GetResult();
    calls := p.calls;
  }

  /** With `get_result` as intended, a failed task reports its exception to every observer:
      two `get_result` calls and a callback registered afterwards all see `e`. */
  method FailureReplayedToEveryObserver<T>(e: Exception, cb: Callback, zero: T)
    returns (first: Outcome<T>, second: Outcome<T>, late: Call<T>)
    ensures first == Thrown(e) && second == Thrown(e)
    ensures late.callback == cb && GetOrThrow(late.argument).0 == Thrown(e)
  {
    var p := new TaskPromise<T>(zero);
    p.UnhandledException(e);
    first := p.GetResult();
    second := p.GetResult();
    p.OnCompleted(cb);
    late := p.calls[|p.calls| - 1];
  }

  /** With `get_result` as written, the first call rethrows `e` and moves it out of the stored
      result: a second call returns `T{}` as if the task had succeeded, and a callback
      registered afterwards is handed a result that does not throw. */
  method GetResultAsWrittenForgetsFailure<T>(e: Exception, cb: Callback, zero: T)
    returns (first: Outcome<T>, second: Outcome<T>, late: Call<T>)
    ensures first == Thrown(e) && second == Returned(zero)
    ensures late.callback == cb && GetOrThrow(late.argument).0 == Returned(zero)
  {
    var p := new TaskPromise<T>(zero);
    p.UnhandledException(e);
    first := p.GetResultAsWritten();
    second := p.GetResultAsWritten();
    p.OnCompleted(cb);
    late := p.calls[|p.calls| - 1];
  }
}
