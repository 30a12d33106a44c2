/** Optional values, results and the module's failure kinds. */
module Results {

  datatype Option<+T> = None | Some(value: T)

  /** Why an invocation stops before the remote call. */
  datatype Error =
    /** `module.fail_json(msg=...)`: an option entry has neither `name` nor `num`. */
    | Fail(msg: string)
    /** Python `TypeError`: iterating over `None`, a bool or an int. */
    | NotIterable
    /** Python `AttributeError`: `iteritems` applied to a list element that is not a dict. */
    | NotAMapping
    /** Python `TypeError`: unpacking the `None` returned when no address family matched. */
    | NoNetworkType

  datatype Result<+T> = Success(value: T) | Failure(error: Error)
}
