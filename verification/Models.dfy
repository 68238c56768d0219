/** Domain values shared by every part of the journal: presences, rules,
    evaluated samples, and the records that cross the storage boundary. */
module Models {
  import opened Wrappers

  /** An instant, in microseconds of UTC. */
  type Time = int

  /** An opaque identifier. The program uses UUID texts and only compares them. */
  type Id = nat

  const SECOND: Time := 1_000_000

  datatype Presence = Inside | Outside | Unknown

  datatype EventType = Enter | Exit | Manual

  datatype EventStatus = Confirmed | Excluded

  datatype Source = Gps | HaZone | ManualEntry

  datatype Coordinates = Coordinates(latitude: real, longitude: real)

  datatype Rule = Rule(
    id: Id,
    tracker: Id,
    place: Id,
    journal: Id,
    enabled: bool,
    enterSeconds: nat,
    exitSeconds: nat,
    cooldownSeconds: nat)

  /** A sample that was accepted and classified against the place. */
  datatype Observation = Observation(
    presence: Presence,
    observedAt: Time,
    coordinates: Coordinates,
    accuracy: Option<real>)

  /** The persisted state of one recording rule. */
  datatype RuntimeState = RuntimeState(
    ruleId: Id,
    presence: Presence,
    lastEventId: Option<Id>,
    lastEventType: Option<EventType>,
    lastEventAt: Option<Time>,
    enterCooldownUntil: Option<Time>,
    exitCooldownUntil: Option<Time>,
    pendingTransition: Option<Presence>,
    pendingStartedAt: Option<Time>,
    pendingDeadline: Option<Time>,
    pendingGeneration: nat,
    latestObservationAt: Option<Time>,
    latestCoordinates: Option<Coordinates>,
    latestAccuracy: Option<real>,
    lastProcessedAt: Option<Time>,
    updatedAt: Time)

  /** One row of the event table, without its identifier. */
  datatype LocationEvent = LocationEvent(
    journalId: Id,
    ruleId: Option<Id>,
    trackerId: Id,
    placeId: Id,
    eventType: EventType,
    occurredAt: Time,
    confirmedAt: Time,
    coordinates: Option<Coordinates>,
    accuracy: Option<real>,
    source: Source,
    status: EventStatus,
    note: Option<string>,
    originalEventId: Option<Id>,
    generation: Option<nat>,
    deadline: Option<Time>,
    createdAt: Time,
    updatedAt: Time)

  /** A confirmed transition, committed together with its runtime state. */
  datatype ConfirmedTransition = ConfirmedTransition(
    eventId: Id,
    ruleId: Id,
    trackerId: Id,
    placeId: Id,
    journalId: Id,
    eventType: EventType,
    source: Source,
    target: Presence,
    occurredAt: Time,
    confirmedAt: Time,
    generation: nat,
    confirmedDeadline: Time,
    coordinates: Option<Coordinates>,
    accuracy: Option<real>,
    runtimeState: RuntimeState)

  function Opposite(p: Presence): Presence
  {
    match p
    case Inside => Outside
    case Outside => Inside
    case Unknown => Unknown
  }
}
