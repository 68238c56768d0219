/** A runtime row as the database stores it: how a state is written to its columns, which
    rows the schema accepts, and how a row is read back. */
module RowCodec {
  import opened Wrappers
  import opened Models
  import opened Machine
  import opened Worlds
  import opened Safety
  import opened SqlValues
  import opened UtcText
  import opened Geofence

  /** The columns of a runtime row. */
  datatype RuntimeRow = RuntimeRow(
    ruleId: SqlValue, presenceState: SqlValue,
    lastEventId: SqlValue, lastEventType: SqlValue, lastEventAt: SqlValue,
    enterCooldownUntil: SqlValue, exitCooldownUntil: SqlValue,
    pendingTransition: SqlValue, pendingStartedAt: SqlValue, pendingDeadline: SqlValue, pendingGeneration: SqlValue,
    latestObservationAt: SqlValue, latestLatitude: SqlValue, latestLongitude: SqlValue, latestAccuracy: SqlValue,
    lastProcessedAt: SqlValue, updatedAt: SqlValue)

  /** How identifiers are spelled. */
  datatype Naming = Naming(spell: Id -> string, identify: string -> Id)

  ghost predicate Faithful(n: Naming)
  {
    forall id :: n.identify(n.spell(id)) == id
  }

  // ----- writing -----

  function PresenceText(p: Presence): string
  {
    match p
    case Inside => "inside"
    case Outside => "outside"
    case Unknown => "unknown"
  }

  function EventTypeText(t: EventType): string
  {
    match t
    case Enter => "enter"
    case Exit => "exit"
    case Manual => "manual"
  }

  function TimeValue(t: Option<Time>): SqlValue
    requires t.Some? ==> Representable(t.value)
  {
    if t.None? then Null else Text(TextOf(t.value))
  }

  /** Every instant of the state has a text. */
  predicate Timely(s: RuntimeState)
  {
    && Fits(s.lastEventAt) && Fits(s.enterCooldownUntil) && Fits(s.exitCooldownUntil)
    && Fits(s.pendingStartedAt) && Fits(s.pendingDeadline)
    && Fits(s.latestObservationAt) && Fits(s.lastProcessedAt) && Representable(s.updatedAt)
  }

  predicate Fits(t: Option<Time>)
  {
    t.Some? ==> Representable(t.value)
  }

  /** The row that both statements write for a state. */
  function Written(s: RuntimeState, n: Naming): RuntimeRow
    requires Timely(s)
  {
    RuntimeRow(
      Text(n.spell(s.ruleId)),
      Text(PresenceText(s.presence)),
      if s.lastEventId.None? then Null else Text(n.spell(s.lastEventId.value)),
      if s.lastEventType.None? then Null else Text(EventTypeText(s.lastEventType.value)),
      TimeValue(s.lastEventAt),
      TimeValue(s.enterCooldownUntil),
      TimeValue(s.exitCooldownUntil),
      if s.pendingTransition.None? then Null else Text(PresenceText(s.pendingTransition.value)),
      TimeValue(s.pendingStartedAt),
      TimeValue(s.pendingDeadline),
      Integer(s.pendingGeneration),
      TimeValue(s.latestObservationAt),
      if s.latestCoordinates.None? then Null else Real(s.latestCoordinates.value.latitude),
      if s.latestCoordinates.None? then Null else Real(s.latestCoordinates.value.longitude),
      if s.latestAccuracy.None? then Null else Real(s.latestAccuracy.value),
      TimeValue(s.lastProcessedAt),
      Text(TextOf(s.updatedAt)))
  }

  // ----- the schema's checks on a runtime row -----

  predicate OneOf(value: SqlValue, texts: set<string>)
  {
    value.Text? && value.text in texts
  }

  predicate Stamped(value: SqlValue)
  {
    value.Text? && value.text != "" && value.text[|value.text| - 1] == 'Z'
  }

  predicate Within(value: SqlValue, low: real, high: real)
  {
    value.Real? && low <= value.measure <= high
  }

  const ACCURACY_LIMIT: real := 1.0e308

  predicate Accepted(row: RuntimeRow)
  {
    TextsAccepted(row) && StampsAccepted(row) && MeasuresAccepted(row)
  }

  predicate TextsAccepted(row: RuntimeRow)
  {
    && row.ruleId.Text?
    && OneOf(row.presenceState, {"inside", "outside", "unknown"})
    && (row.lastEventType.Null? || OneOf(row.lastEventType, {"enter", "exit", "manual"}))
    && (row.pendingTransition.Null? || OneOf(row.pendingTransition, {"inside", "outside"}))
  }

  predicate StampsAccepted(row: RuntimeRow)
  {
    && (row.lastEventAt.Null? || Stamped(row.lastEventAt))
    && (row.enterCooldownUntil.Null? || Stamped(row.enterCooldownUntil))
    && (row.exitCooldownUntil.Null? || Stamped(row.exitCooldownUntil))
    && (row.pendingStartedAt.Null? || Stamped(row.pendingStartedAt))
    && (row.pendingDeadline.Null? || Stamped(row.pendingDeadline))
    && (row.latestObservationAt.Null? || Stamped(row.latestObservationAt))
    && (row.lastProcessedAt.Null? || Stamped(row.lastProcessedAt))
    && Stamped(row.updatedAt)
  }

  /** A check refuses a row only when it is false; with a null in it, a comparison is not. */
  predicate MeasuresAccepted(row: RuntimeRow)
  {
    && (row.latestLatitude.Null? || Within(row.latestLatitude, -90.0, 90.0))
    && (row.latestLongitude.Null? || Within(row.latestLongitude, -180.0, 180.0))
    && (row.latestAccuracy.Null? ||
        (row.latestAccuracy.Real? && 0.0 <= row.latestAccuracy.measure < ACCURACY_LIMIT))
  }

  // ----- reading -----

  function ParsePresence(text: string): Result<Presence, LoadError>
  {
    if text == "inside" then Success(Inside)
    else if text == "outside" then Success(Outside)
    else if text == "unknown" then Success(Unknown)
    else Failure(InvalidValue)
  }

  function ParseEventType(text: string): Result<EventType, LoadError>
  {
    if text == "enter" then Success(Enter)
    else if text == "exit" then Success(Exit)
    else if text == "manual" then Success(Manual)
    else Failure(InvalidValue)
  }

  function OptionalTime(value: SqlValue, field: Field): Result<Option<Time>, LoadError>
  {
    var text :- OptionalText(value, field);
    if text.None? then Success(None)
    else
      match TimeOf(text.value)
      case None => Failure(MustBeUtcTime(field))
      case Some(t) => Success(Some(t))
  }

  function OptionalEventType(value: SqlValue): Result<Option<EventType>, LoadError>
  {
    var text :- OptionalText(value, Field.LastEventType);
    if text.None? then Success(None)
    else
      var eventType :- ParseEventType(text.value);
      Success(Some(eventType))
  }

  function OptionalPresence(value: SqlValue): Result<Option<Presence>, LoadError>
  {
    var text :- OptionalText(value, Field.PendingTransition);
    if text.None? then Success(None)
    else
      var presence :- ParsePresence(text.value);
      Success(Some(presence))
  }

  function OptionalMeters(value: SqlValue, field: Field): Result<Option<real>, LoadError>
  {
    match value
    case Null => Success(None)
    case Integer(n) => Success(Some(n as real))
    case Real(x) => Success(Some(x))
    case _ => Failure(MustBeReal(field))
  }

  function OptionalCoordinates(latitude: SqlValue, longitude: SqlValue): Result<Option<Coordinates>, LoadError>
  {
    var lat :- OptionalMeters(latitude, Field.LatestLatitude);
    var lon :- OptionalMeters(longitude, Field.LatestLongitude);
    if lat.None? && lon.None? then Success(None)
    else if lat.None? || lon.None? then Failure(CoordinatesApart)
    else if !OnGlobe(Coordinates(lat.value, lon.value)) then Failure(CoordinatesOutOfRange)
    else Success(Some(Coordinates(lat.value, lon.value)))
  }

  function OptionalAccuracy(value: SqlValue): Result<Option<real>, LoadError>
  {
    var accuracy :- OptionalMeters(value, Field.LatestAccuracy);
    if accuracy.Some? && accuracy.value < 0.0 then Failure(AccuracyNegative)
    else Success(accuracy)
  }

  function OptionalId(value: SqlValue, field: Field, n: Naming): Result<Option<Id>, LoadError>
  {
    var text :- OptionalText(value, field);
    Success(if text.None? then None else Some(n.identify(text.value)))
  }

  /** A row written before generations were stored counts from zero. */
  function GenerationOf(value: SqlValue): Result<nat, LoadError>
  {
    if value.Null? then Success(0)
    else
      var number :- RequiredInteger(value, Field.PendingGeneration);
      if number < 0 then Failure(InvalidValue) else Success(number)
  }

  function RequiredTime(value: SqlValue, field: Field): Result<Time, LoadError>
  {
    var text :- RequiredText(value, field);
    match TimeOf(text)
    case None => Failure(InvalidValue)
    case Some(t) => Success(t)
  }

  /** Read a row back, column by column; the first bad column decides the error. */
  function Loaded(rule: Id, row: RuntimeRow, n: Naming): Result<RuntimeState, LoadError>
  {
    var presenceText :- RequiredText(row.presenceState, Field.PresenceState);
    var presence :- ParsePresence(presenceText);
    var lastEventId :- OptionalId(row.lastEventId, Field.LastEventId, n);
    var lastEventType :- OptionalEventType(row.lastEventType);
    var lastEventAt :- OptionalTime(row.lastEventAt, Field.LastEventAt);
    var enterCooldownUntil :- OptionalTime(row.enterCooldownUntil, Field.EnterCooldownUntil);
    var exitCooldownUntil :- OptionalTime(row.exitCooldownUntil, Field.ExitCooldownUntil);
    var pendingTransition :- OptionalPresence(row.pendingTransition);
    var pendingStartedAt :- OptionalTime(row.pendingStartedAt, Field.PendingStartedAt);
    var pendingDeadline :- OptionalTime(row.pendingDeadline, Field.PendingDeadline);
    var pendingGeneration :- GenerationOf(row.pendingGeneration);
    var latestObservationAt :- OptionalTime(row.latestObservationAt, Field.LatestObservationAt);
    var latestCoordinates :- OptionalCoordinates(row.latestLatitude, row.latestLongitude);
    var latestAccuracy :- OptionalAccuracy(row.latestAccuracy);
    var lastProcessedAt :- OptionalTime(row.lastProcessedAt, Field.LastProcessedAt);
    var updatedAt :- RequiredTime(row.updatedAt, Field.UpdatedAt);
    Success(RuntimeState(
      rule, presence, lastEventId, lastEventType, lastEventAt, enterCooldownUntil, exitCooldownUntil,
      pendingTransition, pendingStartedAt, pendingDeadline, pendingGeneration,
      latestObservationAt, latestCoordinates, latestAccuracy, lastProcessedAt, updatedAt))
  }

  // ----- the round trip -----

  /** Coordinates are on the globe and the accuracy is not negative. */
  predicate Measured(s: RuntimeState)
  {
    && (s.latestCoordinates.Some? ==> OnGlobe(s.latestCoordinates.value))
    && (s.latestAccuracy.Some? ==> s.latestAccuracy.value >= 0.0)
  }

  lemma TimeColumn(t: Option<Time>, field: Field)
    requires Fits(t)
    ensures OptionalTime(TimeValue(t), field) == Success(t)
    ensures TimeValue(t).Null? || Stamped(TimeValue(t))
  {
    if t.Some? {
      InstantText(t.value, t.value);
      CivilInstant(t.value);
      TextShape(DateTime(CivilOf(t.value), Some(0)));
    }
  }

  lemma TimeColumns(s: RuntimeState)
    requires Timely(s)
    ensures OptionalTime(TimeValue(s.lastEventAt), Field.LastEventAt) == Success(s.lastEventAt)
    ensures OptionalTime(TimeValue(s.enterCooldownUntil), Field.EnterCooldownUntil) == Success(s.enterCooldownUntil)
    ensures OptionalTime(TimeValue(s.exitCooldownUntil), Field.ExitCooldownUntil) == Success(s.exitCooldownUntil)
    ensures OptionalTime(TimeValue(s.pendingStartedAt), Field.PendingStartedAt) == Success(s.pendingStartedAt)
    ensures OptionalTime(TimeValue(s.pendingDeadline), Field.PendingDeadline) == Success(s.pendingDeadline)
    ensures OptionalTime(TimeValue(s.latestObservationAt), Field.LatestObservationAt) == Success(s.latestObservationAt)
    ensures OptionalTime(TimeValue(s.lastProcessedAt), Field.LastProcessedAt) == Success(s.lastProcessedAt)
    ensures RequiredTime(Text(TextOf(s.updatedAt)), Field.UpdatedAt) == Success(s.updatedAt)
  {
    TimeColumn(s.lastEventAt, Field.LastEventAt);
    TimeColumn(s.enterCooldownUntil, Field.EnterCooldownUntil);
    TimeColumn(s.exitCooldownUntil, Field.ExitCooldownUntil);
    TimeColumn(s.pendingStartedAt, Field.PendingStartedAt);
    TimeColumn(s.pendingDeadline, Field.PendingDeadline);
    TimeColumn(s.latestObservationAt, Field.LatestObservationAt);
    TimeColumn(s.lastProcessedAt, Field.LastProcessedAt);
    InstantText(s.updatedAt, s.updatedAt);
  }

  lemma EnumerationColumns(p: Option<Presence>, t: Option<EventType>)
    ensures p.Some? ==> ParsePresence(PresenceText(p.value)) == Success(p.value)
    ensures OptionalPresence(if p.None? then Null else Text(PresenceText(p.value))) == Success(p)
    ensures OptionalEventType(if t.None? then Null else Text(EventTypeText(t.value))) == Success(t)
  {
  }

  lemma IdColumn(id: Option<Id>, n: Naming)
    requires Faithful(n)
    ensures OptionalId(if id.None? then Null else Text(n.spell(id.value)), LastEventId, n) == Success(id)
  {
  }

  lemma CoordinateColumns(c: Option<Coordinates>)
    ensures
      var read := OptionalCoordinates(
                    if c.None? then Null else Real(c.value.latitude),
                    if c.None? then Null else Real(c.value.longitude));
      read == if c.Some? && !OnGlobe(c.value) then Failure(CoordinatesOutOfRange) else Success(c)
  {
  }

  lemma AccuracyColumn(a: Option<real>)
    ensures
      OptionalAccuracy(if a.None? then Null else Real(a.value)) ==
      if a.Some? && a.value < 0.0 then Failure(AccuracyNegative) else Success(a)
  {
  }

  /** A written row reads back as the state it was written from exactly when its coordinates and its
      accuracy are in range. */
  lemma RowRoundTrip(s: RuntimeState, n: Naming)
    requires Timely(s) && Faithful(n)
    ensures Loaded(s.ruleId, Written(s, n), n) == Success(s) <==> Measured(s)
  {
    var row := Written(s, n);
    EnumerationColumns(Some(s.presence), s.lastEventType);
    EnumerationColumns(s.pendingTransition, s.lastEventType);
    IdColumn(s.lastEventId, n);
    CoordinateColumns(s.latestCoordinates);
    AccuracyColumn(s.latestAccuracy);
    TimeColumns(s);
    LoadedFrom(s, row, n);
  }

  /** When every column but the measurements reads back, these decide. */
  lemma LoadedFrom(s: RuntimeState, row: RuntimeRow, n: Naming)
    requires row.presenceState.Text? && ParsePresence(row.presenceState.text) == Success(s.presence)
    requires OptionalId(row.lastEventId, Field.LastEventId, n) == Success(s.lastEventId)
    requires OptionalEventType(row.lastEventType) == Success(s.lastEventType)
    requires OptionalTime(row.lastEventAt, Field.LastEventAt) == Success(s.lastEventAt)
    requires OptionalTime(row.enterCooldownUntil, Field.EnterCooldownUntil) == Success(s.enterCooldownUntil)
    requires OptionalTime(row.exitCooldownUntil, Field.ExitCooldownUntil) == Success(s.exitCooldownUntil)
    requires OptionalPresence(row.pendingTransition) == Success(s.pendingTransition)
    requires OptionalTime(row.pendingStartedAt, Field.PendingStartedAt) == Success(s.pendingStartedAt)
    requires OptionalTime(row.pendingDeadline, Field.PendingDeadline) == Success(s.pendingDeadline)
    requires GenerationOf(row.pendingGeneration) == Success(s.pendingGeneration)
    requires OptionalTime(row.latestObservationAt, Field.LatestObservationAt) == Success(s.latestObservationAt)
    requires OptionalTime(row.lastProcessedAt, Field.LastProcessedAt) == Success(s.lastProcessedAt)
    requires RequiredTime(row.updatedAt, Field.UpdatedAt) == Success(s.updatedAt)
    ensures
      var coordinates := OptionalCoordinates(row.latestLatitude, row.latestLongitude);
      var accuracy := OptionalAccuracy(row.latestAccuracy);
      Loaded(s.ruleId, row, n) == Success(s) <==>
      coordinates == Success(s.latestCoordinates) && accuracy == Success(s.latestAccuracy)
  {
  }

  /** The schema accepts a written row exactly when, besides, the accuracy is below its limit and the
      pending target is a definite presence. */
  lemma WrittenRowAccepted(s: RuntimeState, n: Naming)
    requires Timely(s)
    ensures
      Accepted(Written(s, n)) <==>
      && Measured(s)
      && (s.latestAccuracy.Some? ==> s.latestAccuracy.value < ACCURACY_LIMIT)
      && s.pendingTransition != Some(Unknown)
  {
    TimesStamped(s, n);
    ChecksOnTexts(s, n);
    ChecksOnMeasures(s, n);
  }

  lemma TimesStamped(s: RuntimeState, n: Naming)
    requires Timely(s)
    ensures StampsAccepted(Written(s, n))
  {
    TimeColumn(s.lastEventAt, UpdatedAt);
    TimeColumn(s.enterCooldownUntil, UpdatedAt);
    TimeColumn(s.exitCooldownUntil, UpdatedAt);
    TimeColumn(s.pendingStartedAt, UpdatedAt);
    TimeColumn(s.pendingDeadline, UpdatedAt);
    TimeColumn(s.latestObservationAt, UpdatedAt);
    TimeColumn(s.lastProcessedAt, UpdatedAt);
    TimeColumn(Some(s.updatedAt), UpdatedAt);
  }

  lemma ChecksOnTexts(s: RuntimeState, n: Naming)
    requires Timely(s)
    ensures TextsAccepted(Written(s, n)) <==> s.pendingTransition != Some(Unknown)
  {
  }

  lemma ChecksOnMeasures(s: RuntimeState, n: Naming)
    requires Timely(s)
    ensures
      MeasuresAccepted(Written(s, n)) <==>
      Measured(s) && (s.latestAccuracy.Some? ==> s.latestAccuracy.value < ACCURACY_LIMIT)
  {
  }

  // ----- every row that the schema accepts -----

  /** The column is null or holds the text of an instant. */
  predicate HoldsTime(value: SqlValue)
  {
    value.Null? || (value.Text? && TimeOf(value.text).Some?)
  }

  predicate HoldsTimes(row: RuntimeRow)
  {
    && HoldsTime(row.lastEventAt) && HoldsTime(row.enterCooldownUntil) && HoldsTime(row.exitCooldownUntil)
    && HoldsTime(row.pendingStartedAt) && HoldsTime(row.pendingDeadline) && HoldsTime(row.latestObservationAt)
    && HoldsTime(row.lastProcessedAt) && HoldsTime(row.updatedAt)
  }

  lemma TimeReads(value: SqlValue, field: Field)
    ensures OptionalTime(value, field).Success? <==> HoldsTime(value)
  {
  }

  lemma TextsRead(row: RuntimeRow)
    requires TextsAccepted(row)
    ensures row.presenceState.Text? && ParsePresence(row.presenceState.text).Success?
    ensures OptionalEventType(row.lastEventType).Success? && OptionalPresence(row.pendingTransition).Success?
  {
  }

  lemma MeasuresRead(row: RuntimeRow)
    requires MeasuresAccepted(row)
    ensures
      OptionalCoordinates(row.latestLatitude, row.latestLongitude).Success? <==>
      (row.latestLatitude.Null? <==> row.latestLongitude.Null?)
    ensures OptionalAccuracy(row.latestAccuracy).Success?
  {
  }

  /** The schema's checks do nearly all that reading a row needs: an accepted row reads back exactly if its
      times are those of instants, its coordinates come together, and its generation is a count. */
  lemma AcceptedReadsBack(rule: Id, row: RuntimeRow, n: Naming)
    requires Accepted(row) && (row.lastEventId.Null? || row.lastEventId.Text?)
    ensures
      Loaded(rule, row, n).Success? <==>
      && HoldsTimes(row) && (row.latestLatitude.Null? <==> row.latestLongitude.Null?)
      && (row.pendingGeneration.Null? || (row.pendingGeneration.Integer? && row.pendingGeneration.number >= 0))
  {
    TextsRead(row);
    MeasuresRead(row);
    TimeReads(row.lastEventAt, Field.LastEventAt);
    TimeReads(row.enterCooldownUntil, Field.EnterCooldownUntil);
    TimeReads(row.exitCooldownUntil, Field.ExitCooldownUntil);
    TimeReads(row.pendingStartedAt, Field.PendingStartedAt);
    TimeReads(row.pendingDeadline, Field.PendingDeadline);
    TimeReads(row.latestObservationAt, Field.LatestObservationAt);
    TimeReads(row.lastProcessedAt, Field.LastProcessedAt);
    assert RequiredTime(row.updatedAt, Field.UpdatedAt).Success? <==> HoldsTime(row.updatedAt);
  }

  // ----- what each column means -----

  /** The column holds this instant, or is null for none. */
  predicate TimeIs(value: SqlValue, t: Option<Time>)
  {
    if value.Null? then t.None? else value.Text? && t.Some? && TimeOf(value.text) == t
  }

  /** The column holds this number, as an integer or as a real, or is null for none. */
  predicate NumberIs(value: SqlValue, x: Option<real>)
  {
    match value
    case Null => x.None?
    case Integer(k) => x == Some(k as real)
    case Real(y) => x == Some(y)
    case _ => false
  }

  lemma TimeIsRead(value: SqlValue, field: Field)
    requires OptionalTime(value, field).Success?
    ensures TimeIs(value, OptionalTime(value, field).value)
  {
  }

  lemma TextIsRead(text: string)
    ensures ParsePresence(text).Success? ==> text == PresenceText(ParsePresence(text).value)
    ensures ParseEventType(text).Success? ==> text == EventTypeText(ParseEventType(text).value)
  {
  }

  lemma CoordinatesAreRead(latitude: SqlValue, longitude: SqlValue)
    requires OptionalCoordinates(latitude, longitude).Success?
    ensures
      var c := OptionalCoordinates(latitude, longitude).value;
      && NumberIs(latitude, if c.None? then None else Some(c.value.latitude))
      && NumberIs(longitude, if c.None? then None else Some(c.value.longitude))
  {
  }

  /** Every column reads as this state's field. */
  predicate ColumnsRead(row: RuntimeRow, s: RuntimeState, n: Naming)
  {
    && row.presenceState.Text? && ParsePresence(row.presenceState.text) == Success(s.presence)
    && OptionalId(row.lastEventId, Field.LastEventId, n) == Success(s.lastEventId)
    && OptionalEventType(row.lastEventType) == Success(s.lastEventType)
    && OptionalPresence(row.pendingTransition) == Success(s.pendingTransition)
    && GenerationOf(row.pendingGeneration) == Success(s.pendingGeneration)
    && OptionalCoordinates(row.latestLatitude, row.latestLongitude) == Success(s.latestCoordinates)
    && OptionalAccuracy(row.latestAccuracy) == Success(s.latestAccuracy)
    && TimesRead(row, s)
  }

  predicate TimesRead(row: RuntimeRow, s: RuntimeState)
  {
    && OptionalTime(row.lastEventAt, Field.LastEventAt) == Success(s.lastEventAt)
    && OptionalTime(row.enterCooldownUntil, Field.EnterCooldownUntil) == Success(s.enterCooldownUntil)
    && OptionalTime(row.exitCooldownUntil, Field.ExitCooldownUntil) == Success(s.exitCooldownUntil)
    && OptionalTime(row.pendingStartedAt, Field.PendingStartedAt) == Success(s.pendingStartedAt)
    && OptionalTime(row.pendingDeadline, Field.PendingDeadline) == Success(s.pendingDeadline)
    && OptionalTime(row.latestObservationAt, Field.LatestObservationAt) == Success(s.latestObservationAt)
    && OptionalTime(row.lastProcessedAt, Field.LastProcessedAt) == Success(s.lastProcessedAt)
    && RequiredTime(row.updatedAt, Field.UpdatedAt) == Success(s.updatedAt)
  }

  lemma TimesSucceed(rule: Id, row: RuntimeRow, n: Naming)
    requires Loaded(rule, row, n).Success?
    ensures OptionalTime(row.lastEventAt, Field.LastEventAt).Success?
    ensures OptionalTime(row.enterCooldownUntil, Field.EnterCooldownUntil).Success?
    ensures OptionalTime(row.exitCooldownUntil, Field.ExitCooldownUntil).Success?
    ensures OptionalTime(row.pendingStartedAt, Field.PendingStartedAt).Success?
    ensures OptionalTime(row.pendingDeadline, Field.PendingDeadline).Success?
    ensures OptionalTime(row.latestObservationAt, Field.LatestObservationAt).Success?
    ensures OptionalTime(row.lastProcessedAt, Field.LastProcessedAt).Success?
    ensures RequiredTime(row.updatedAt, Field.UpdatedAt).Success?
  {
  }

  lemma OthersSucceed(rule: Id, row: RuntimeRow, n: Naming)
    requires Loaded(rule, row, n).Success?
    ensures row.presenceState.Text? && ParsePresence(row.presenceState.text).Success?
    ensures OptionalId(row.lastEventId, Field.LastEventId, n).Success?
    ensures OptionalEventType(row.lastEventType).Success? && OptionalPresence(row.pendingTransition).Success?
    ensures GenerationOf(row.pendingGeneration).Success?
    ensures OptionalCoordinates(row.latestLatitude, row.latestLongitude).Success?
    ensures OptionalAccuracy(row.latestAccuracy).Success?
  {
  }

  lemma ReadBack(rule: Id, row: RuntimeRow, n: Naming)
    requires Loaded(rule, row, n).Success?
    ensures Loaded(rule, row, n).value.ruleId == rule && ColumnsRead(row, Loaded(rule, row, n).value, n)
  {
    TimesSucceed(rule, row, n);
    OthersSucceed(rule, row, n);
    var s := RuntimeState(
      rule, ParsePresence(row.presenceState.text).value, OptionalId(row.lastEventId, Field.LastEventId, n).value,
      OptionalEventType(row.lastEventType).value, OptionalTime(row.lastEventAt, Field.LastEventAt).value,
      OptionalTime(row.enterCooldownUntil, Field.EnterCooldownUntil).value,
      OptionalTime(row.exitCooldownUntil, Field.ExitCooldownUntil).value,
      OptionalPresence(row.pendingTransition).value,
      OptionalTime(row.pendingStartedAt, Field.PendingStartedAt).value,
      OptionalTime(row.pendingDeadline, Field.PendingDeadline).value,
      GenerationOf(row.pendingGeneration).value,
      OptionalTime(row.latestObservationAt, Field.LatestObservationAt).value,
      OptionalCoordinates(row.latestLatitude, row.latestLongitude).value, OptionalAccuracy(row.latestAccuracy).value,
      OptionalTime(row.lastProcessedAt, Field.LastProcessedAt).value,
      RequiredTime(row.updatedAt, Field.UpdatedAt).value);
    LoadedFrom(s, row, n);
  }

  predicate TimesShown(row: RuntimeRow, s: RuntimeState)
  {
    && TimeIs(row.lastEventAt, s.lastEventAt)
    && TimeIs(row.enterCooldownUntil, s.enterCooldownUntil) && TimeIs(row.exitCooldownUntil, s.exitCooldownUntil)
    && TimeIs(row.pendingStartedAt, s.pendingStartedAt) && TimeIs(row.pendingDeadline, s.pendingDeadline)
    && TimeIs(row.latestObservationAt, s.latestObservationAt) && TimeIs(row.lastProcessedAt, s.lastProcessedAt)
    && TimeIs(row.updatedAt, Some(s.updatedAt))
  }

  lemma TimesAreShown(row: RuntimeRow, s: RuntimeState)
    requires TimesRead(row, s)
    ensures TimesShown(row, s)
  {
    TimeIsRead(row.lastEventAt, Field.LastEventAt);
    TimeIsRead(row.enterCooldownUntil, Field.EnterCooldownUntil);
    TimeIsRead(row.exitCooldownUntil, Field.ExitCooldownUntil);
    TimeIsRead(row.pendingStartedAt, Field.PendingStartedAt);
    TimeIsRead(row.pendingDeadline, Field.PendingDeadline);
    TimeIsRead(row.latestObservationAt, Field.LatestObservationAt);
    TimeIsRead(row.lastProcessedAt, Field.LastProcessedAt);
  }

  /** The row shows every field of the state in the field's own column; a row from before generations were
      stored has generation zero. */
  predicate Shows(row: RuntimeRow, s: RuntimeState, n: Naming)
  {
    TimesShown(row, s) && TextsShown(row, s, n) && NumbersShown(row, s)
  }

  predicate TextsShown(row: RuntimeRow, s: RuntimeState, n: Naming)
  {
    && row.presenceState == Text(PresenceText(s.presence))
    && (if row.lastEventId.Null? then s.lastEventId.None?
        else row.lastEventId.Text? && s.lastEventId == Some(n.identify(row.lastEventId.text)))
    && row.lastEventType == (if s.lastEventType.None? then Null else Text(EventTypeText(s.lastEventType.value)))
    && row.pendingTransition ==
       (if s.pendingTransition.None? then Null else Text(PresenceText(s.pendingTransition.value)))
  }

  predicate NumbersShown(row: RuntimeRow, s: RuntimeState)
  {
    var c := s.latestCoordinates;
    && (row.pendingGeneration == Integer(s.pendingGeneration)
        || (row.pendingGeneration.Null? && s.pendingGeneration == 0))
    && NumberIs(row.latestLatitude, if c.None? then None else Some(c.value.latitude))
    && NumberIs(row.latestLongitude, if c.None? then None else Some(c.value.longitude))
    && NumberIs(row.latestAccuracy, s.latestAccuracy)
  }

  lemma TextsAreShown(row: RuntimeRow, s: RuntimeState, n: Naming)
    requires row.presenceState.Text? && ParsePresence(row.presenceState.text) == Success(s.presence)
    requires OptionalId(row.lastEventId, Field.LastEventId, n) == Success(s.lastEventId)
    requires OptionalEventType(row.lastEventType) == Success(s.lastEventType)
    requires OptionalPresence(row.pendingTransition) == Success(s.pendingTransition)
    ensures TextsShown(row, s, n)
  {
    TextIsRead(row.presenceState.text);
    if row.lastEventType.Text? {
      TextIsRead(row.lastEventType.text);
    }
    if row.pendingTransition.Text? {
      TextIsRead(row.pendingTransition.text);
    }
  }

  lemma NumbersAreShown(row: RuntimeRow, s: RuntimeState)
    requires GenerationOf(row.pendingGeneration) == Success(s.pendingGeneration)
    requires OptionalCoordinates(row.latestLatitude, row.latestLongitude) == Success(s.latestCoordinates)
    requires OptionalAccuracy(row.latestAccuracy) == Success(s.latestAccuracy)
    ensures NumbersShown(row, s)
  {
    CoordinatesAreRead(row.latestLatitude, row.latestLongitude);
  }

  /** Whatever wrote it, a row that reads back shows the state that is read. */
  lemma ReadRowShows(rule: Id, row: RuntimeRow, n: Naming)
    requires Loaded(rule, row, n).Success?
    ensures Loaded(rule, row, n).value.ruleId == rule && Shows(row, Loaded(rule, row, n).value, n)
  {
    ReadBack(rule, row, n);
    var s := Loaded(rule, row, n).value;
    TimesAreShown(row, s);
    TextsAreShown(row, s, n);
    NumbersAreShown(row, s);
  }

  /** A stamp is a text that ends in Z. */
  lemma StampEndsInZ(value: SqlValue)
    ensures Stamped(value) <==> value.Text? && exists front: string :: value.text == front + "Z"
  {
    if Stamped(value) {
      assert value.text == value.text[..|value.text| - 1] + "Z";
    }
  }

  // ----- every row that an engine saves -----

  predicate SampleMeasured(o: Observation)
  {
    OnGlobe(o.coordinates) && (o.accuracy.Some? ==> 0.0 <= o.accuracy.value)
  }

  /** Every evaluated sample is measured. */
  lemma EvaluatedIsMeasured(raw: TrackerState, around: Surroundings, state: Option<RuntimeState>, distance: Distance)
    requires EvaluateTrackerState(raw, around, state, distance).Success?
    ensures SampleMeasured(EvaluateTrackerState(raw, around, state, distance).value.observation)
  {
  }

  predicate RowMeasured(d: Disk)
  {
    d.row.Some? ==> Measured(d.row.value)
  }

  lemma StepMeasured(w: World, step: Worlds.Step)
    requires Coherent(w) && RowMeasured(w.disk)
    requires step.On? && step.input.Sample? ==> SampleMeasured(step.input.observation)
    ensures RowMeasured(Next(w, step).disk)
  {
  }

  predicate SamplesMeasured(steps: seq<Worlds.Step>)
  {
    forall k :: 0 <= k < |steps| && steps[k].On? && steps[k].input.Sample? ==>
        SampleMeasured(steps[k].input.observation)
  }

  lemma {:induction false} MeasuredRun(w: World, steps: seq<Worlds.Step>)
    requires Coherent(w) && RowMeasured(w.disk) && SamplesMeasured(steps)
    ensures Coherent(Run(w, steps)) && RowMeasured(Run(w, steps).disk)
    decreases |steps|
  {
    if steps != [] {
      StepMeasured(w, steps[0]);
      CoherentNext(w, steps[0]);
      MeasuredRun(Next(w, steps[0]), steps[1..]);
    }
  }

  /** Recovery sees exactly what the engine saved: after every run on evaluated samples, the row that
      was written reads back as the engine's state. */
  lemma RecoverySeesWhatWasSaved(steps: seq<Worlds.Step>, n: Naming)
    requires SamplesMeasured(steps) && Faithful(n)
    requires var row := Run(Genesis(), steps).disk.row; row.Some? && Timely(row.value)
    ensures
      var s := Run(Genesis(), steps).disk.row.value;
      Loaded(s.ruleId, Written(s, n), n) == Success(s) && s.pendingTransition != Some(Unknown)
  {
    MeasuredRun(Genesis(), steps);
    var s := Run(Genesis(), steps).disk.row.value;
    RowRoundTrip(s, n);
  }
}
