/** Optional values, results and error kinds shared by the whole model.
    Java `null` becomes `None`; a thrown IllegalArgumentException becomes a
    `Failure`/`Fail` carrying the kind of error the message describes. */
module Outcomes {

  datatype Option<+T> = None | Some(value: T)

  /** The kinds of failure the domain model and its validators raise. */
  datatype Error =
    | NullId(field: string)        // a required identifier reference was null
    | BlankText(field: string)     // a required string was null or blank
    | NegativePosition             // a position below zero
    | SameColumns                  // a move whose source and target column coincide
    | SourceColumnNotFound
    | TargetColumnNotFound
    | ColumnNotFound
    | CardNotFound
    | BoardNotFound

  /** A value, or the error that prevented computing it. */
  datatype Result<+T> = Success(value: T) | Failure(error: Error)

  /** The outcome of an operation that returns nothing (a Java `void` method). */
  datatype Outcome = Pass | Fail(error: Error)
}
