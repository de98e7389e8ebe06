/** Failure-carrying values shared by the dispatcher and the event filters:
    a Python function that either returns or raises becomes a function that
    returns a `Result`; an argument that may be `None` becomes an `Option`. */
module Outcomes {

  datatype Option<+T> = None | Some(value: T)

  datatype Result<+T, +E> = Ok(value: T) | Err(error: E)
}
