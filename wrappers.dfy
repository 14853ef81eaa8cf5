/** Failure-compatible wrappers shared by the model: absent values and fatal errors. */
module Wrappers {

  /** A value that may be absent (Java's `null`). */
  datatype Option<+T> = None | Some(value: T)

  /** The outcome of an operation that returns a value or throws. */
  datatype Result<+T, +E> = Success(value: T) | Failure(error: E)

  /** The outcome of an operation that returns nothing or throws. */
  datatype Outcome<+E> = Pass | Fail(error: E)
}

/** Identifiers of links, persons, vehicles, stops, lines, routes and departures. */
module Ids {

  /** An `Id` compares by its textual key. */
  type Id = string
}
