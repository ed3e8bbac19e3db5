/** Small failure-carrying datatypes shared by every module of the model. */
module Wrappers {

  /** Python's `Optional[T]`: `None` or a present value. */
  datatype Option<+T> = None | Some(value: T)

  /** The result of a call that either returns normally or raises. */
  datatype Outcome<+E> = Pass | Fail(error: E)

  /** A call that returns a value or raises. */
  datatype Result<+T, +E> = Ok(value: T) | Err(error: E)
}

/** The exceptions the core raises, named after the condition that raises them. */
module Errors {

  datatype Error =
    | AlreadyStarted      // RuntimeWarning from Request.start
    | AlreadyStopped      // RuntimeWarning from Request.stop
    | AddressNotActive    // KeyError from PingManager.remove_requests_by_address
    | QueueNotDefined     // RuntimeError when an update queue was never set
    | UnknownOperation    // KeyError from CLIView for a tag without a handler
    | MissingMetrics      // KeyError from CLIView for an UPDATE without metrics
    | MissingEntry        // KeyError from dict.pop in CLIView for an absent address
    | AttributeMissing    // AttributeError when reading a field RequestMetrics lacks
}
