/** Values shared by every part of the model: optional values, the named
    rejection kinds the controllers raise, and the outcome of a request. */
module Outcomes {

  /** A Java reference that may be null, for value-typed fields. */
  datatype Option<T> = None | Some(value: T)

  /** One tag per exception a controller can end with. */
  datatype ApiError =
    | NotFound                   // ResourceNotFoundException: the path entity is null
    | ScorecardDoesNotExist
    | ScoresDoNotExist
    | ScoresDoNotMatchScorecard
    | RequiredScoresAbsent
    | GameDoesNotMatchScorecard
    | GameAlreadyHasScorecard
    | DistrictDoesNotExist
    | Conflict                   // the storage layer's unique constraint rejected a row
    | NullDereference            // an uncaught null dereference

  /** What a request handler ends with: the entity it returns, or the error it raises. */
  datatype Outcome<T> = Ok(value: T) | Err(error: ApiError)
}
