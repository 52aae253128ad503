/** Optional values, results, and the exceptions the C# code throws or lets escape. */
module Wrappers {

  /** A value that may be absent; `None` also stands for a C# `null` reference. */
  datatype Option<+T> = None | Some(value: T)

  /** The .NET exceptions the modelled code raises. */
  datatype Exception =
    | KeyNotFound          // KeyNotFoundException
    | NullReference        // NullReferenceException
    | ArgumentOutOfRange   // ArgumentOutOfRangeException (List indexing, RemoveAt)
    | IndexOutOfRange      // IndexOutOfRangeException (array indexing)
    | DuplicateKey         // ArgumentException from Dictionary.Add
    | ItemNotFound         // the application's ItemNotFoundException
    | RequestFailed        // the application's RequestFailedException (remote calls)
    | StackOverflow        // a recursion that never returns; .NET then ends the process

  /** The result of a call that either returns a value or throws. */
  datatype Result<+T> = Ok(value: T) | Throws(error: Exception)

  /** The outcome of a call that returns nothing or throws. */
  datatype Status = Done | Threw(error: Exception)
}
