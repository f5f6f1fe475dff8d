/** The value/exception cell `Result<T>` and its `int` and `void` specialisations.

    `Result<int>` is the generic cell at `int`, and `Result<void>` is the generic cell at
    the unit type `()`: its default constructor stores no exception, which is `Default(())`. */
module Results {

  datatype Option<+T> = None | Some(value: T)

  /** An exception object, as an `std::exception_ptr` points to one: only its message matters. */
  datatype Exception = Exception(what: string)

  /** A `Result<T>`: the stored value `_value` and the stored exception `_exception_ptr`.
      A cell built from an exception still holds a value, the value-initialised `T{}`. */
  datatype Result<T> = Result(value: T, exception: Option<Exception>)

  /** What a call of `get_or_throw` does: return a value, or throw an exception. */
  datatype Outcome<T> = Returned(value: T) | Thrown(exception: Exception)

  /** `Result()`: holds `T{}` (passed as `zero`) and no exception, so reading it does not fail. */
  function Default<T>(zero: T): (r: Result<T>)
    ensures GetOrThrow(r).0 == Returned(zero)
    ensures GetOrThrow(r).1 == r
  {
    Result(zero, None)
  }

  /** `Result(value)`: reading it gives back the value and leaves the cell as it was. */
  function FromValue<T>(v: T): (r: Result<T>)
    ensures GetOrThrow(r) == (Returned(v), r)
  {
    Result(v, None)
  }

  /** `Result(exception_ptr)`: reading it throws that exception, whatever value the cell holds. */
  function FromException<T>(e: Exception, zero: T): (r: Result<T>)
    ensures GetOrThrow(r).0 == Thrown(e)
    ensures GetOrThrow(r).1 == Default(zero)
  {
    Result(zero, Some(e))
  }

  /** `get_or_throw`: the exception is checked before the value. Rethrowing moves the
      exception out of the cell, so the returned cell (the cell after the call) holds none. */
  function GetOrThrow<T>(r: Result<T>): (p: (Outcome<T>, Result<T>))
    ensures p.0.Thrown? <==> r.exception.Some?
    ensures p.1.value == r.value && p.1.exception == None
  {
    match r.exception
    case Some(e) => (Thrown(e), r.(exception := None))
    case None => (Returned(r.value), r)
  }

  /** Whatever value a cell holds, a stored exception wins. */
  lemma ExceptionCheckedFirst<T>(v: T, e: Exception)
    ensures GetOrThrow(Result(v, Some(e))).0 == Thrown(e)
  {
  }

  /** A second `get_or_throw` on a cell whose first call threw does not throw again:
      it returns the value stored beside the exception (`T{}` for a cell built from an exception). */
  lemma {:induction false} RethrowConsumesException<T>(e: Exception, zero: T)
    ensures var (first, rest) := GetOrThrow(FromException(e, zero));
            first == Thrown(e) && GetOrThrow(rest).0 == Returned(zero)
  {
  }
}
