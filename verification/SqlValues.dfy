/** The scalars that cross the SQL boundary, and how a required one is read. */
module SqlValues {
  import opened Wrappers

  datatype SqlValue = Null | Text(text: string) | Integer(number: int) | Real(measure: real) | Blob(bytes: seq<nat>)

  /** The columns of a runtime row that are parsed. */
  datatype Field =
    | PresenceState | LastEventId | LastEventType | LastEventAt | EnterCooldownUntil | ExitCooldownUntil
    | PendingTransition | PendingStartedAt | PendingDeadline | PendingGeneration
    | LatestObservationAt | LatestLatitude | LatestLongitude | LatestAccuracy | LastProcessedAt | UpdatedAt

  datatype LoadError =
    | MustBeText(field: Field)
    | MustBeInteger(field: Field)
    | MustBeReal(field: Field)
    | MustBeUtcTime(field: Field)
    | CoordinatesApart
    | CoordinatesOutOfRange
    | AccuracyNegative
    | InvalidValue // an enumeration, a time or a count outside its values

  function RequiredText(value: SqlValue, field: Field): Result<string, LoadError>
  {
    if value.Text? then Success(value.text) else Failure(MustBeText(field))
  }

  function RequiredInteger(value: SqlValue, field: Field): Result<int, LoadError>
  {
    if value.Integer? then Success(value.number) else Failure(MustBeInteger(field))
  }

  function OptionalText(value: SqlValue, field: Field): Result<Option<string>, LoadError>
  {
    if value.Null? then Success(None)
    else
      var text :- RequiredText(value, field);
      Success(Some(text))
  }
}
