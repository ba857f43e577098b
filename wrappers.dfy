/** Optional values and the error outcomes of the services.
    The error kinds follow the .NET exception types the services throw. */
module Wrappers {
  datatype Option<T> = None | Some(value: T)

  /** The exception a service operation ends with. */
  datatype ErrorKind =
    | KeyNotFound        // KeyNotFoundException
    | InvalidOperation   // InvalidOperationException
    | InvalidArgument    // ArgumentException
    | GeneralError       // System.Exception thrown by the catalogue manager
    | DbUpdate           // a unique index or primary key rejects SaveChanges

  datatype Result<T> = Ok(value: T) | Err(error: ErrorKind)

  /** Outcome of an operation that returns nothing on success. */
  datatype Outcome = Success | Failure(error: ErrorKind)
}
