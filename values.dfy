/** The values that flow through a SyncPromise: the payloads user code passes
    around, the way a user-supplied function completes (it returns or it
    throws), the shape of an argument that may or may not be a function, and
    the two errors the primitive raises itself. */
module Values {

  /** The JavaScript values the model needs: `undefined`, numbers, strings and
      `Error` objects. Only the values the behaviour is stated over appear. */
  datatype Value =
    | Undefined
    | Num(n: int)
    | Str(s: string)
    | ErrorObject(message: string)

  /** How a call into user code completes: a normal return with a result, or a
      throw with the thrown value. Outcomes are classified by control flow,
      never by the shape of the value. */
  datatype Outcome = Returned(result: Value) | Threw(thrown: Value)

  /** An argument that should be a function `F`: left out altogether, given but
      not callable (such as `123`), or a callable function. */
  datatype Arg<F> = Missing | NotCallable(given: Value) | Callable(f: F)

  /** The two errors the primitive throws synchronously to its caller. */
  datatype Error =
    | InvalidArgument  // a required function argument is missing or not callable
    | IllegalState     // `then`/`catch` on a promise that has not settled

  /** A call to the primitive either yields a value or throws one of its own errors. */
  datatype Result<T> = Ok(value: T) | Err(error: Error)

  datatype Option<T> = None | Some(value: T)
}
