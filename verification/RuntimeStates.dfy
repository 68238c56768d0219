/** Construction of runtime states and of confirmed transitions. */
module RuntimeStates {
  import opened Wrappers
  import opened Models

  /** The violated engine invariant, as the engine reports it. */
  type Detail = string

  function BaselineState(rule: Rule, observation: Observation, now: Time, storeCoordinates: bool): RuntimeState
  {
    RuntimeState(
      rule.id, observation.presence,
      None, None, None,
      None, None,
      None, None, None, 0,
      Some(observation.observedAt),
      PrivacyCoordinates(observation, storeCoordinates),
      observation.accuracy,
      Some(observation.observedAt),
      now)
  }

  function AcceptedStateUpdate(
    state: RuntimeState, observation: Observation, now: Time, storeCoordinates: bool, clearPending: bool): RuntimeState
  {
    var updated := state.(
      latestObservationAt := Some(observation.observedAt),
      latestCoordinates := PrivacyCoordinates(observation, storeCoordinates),
      latestAccuracy := observation.accuracy,
      lastProcessedAt := Some(observation.observedAt),
      updatedAt := now);
    if clearPending then WithoutPending(updated) else updated
  }

  function WithoutPending(state: RuntimeState): RuntimeState
  {
    state.(pendingTransition := None, pendingStartedAt := None, pendingDeadline := None)
  }

  /** The state written when a sample first disagrees with the confirmed presence. */
  function PendingState(
    rule: Rule, state: RuntimeState, observation: Observation, now: Time, storeCoordinates: bool): RuntimeState
  {
    AcceptedStateUpdate(state, observation, now, storeCoordinates, false).(
      pendingTransition := Some(observation.presence),
      pendingStartedAt := Some(now),
      pendingDeadline := Some(now + ConfirmationSeconds(rule, observation.presence) * SECOND),
      pendingGeneration := state.pendingGeneration + 1)
  }

  function PrivacyCoordinates(observation: Observation, storeCoordinates: bool): Option<Coordinates>
  {
    if storeCoordinates then Some(observation.coordinates) else None
  }

  function ConfirmationSeconds(rule: Rule, target: Presence): nat
  {
    match target
    case Inside => rule.enterSeconds
    case Outside => rule.exitSeconds
    case Unknown => 0
  }

  function EventTypeFor(target: Presence): Result<EventType, Detail>
  {
    match target
    case Inside => Success(Enter)
    case Outside => Success(Exit)
    case Unknown => Failure("unknown cannot be confirmed")
  }

  function DirectionCooldown(state: RuntimeState, target: Presence): Option<Time>
  {
    match target
    case Inside => state.enterCooldownUntil
    case Outside => state.exitCooldownUntil
    case Unknown => None
  }

  /** Adopt the pending target; with an event, also record it and open its cooldown. */
  function ConfirmedState(
    state: RuntimeState, target: Presence, now: Time, eventId: Option<Id>, rule: Rule): Result<RuntimeState, Detail>
  {
    var settled := WithoutPending(state).(presence := target, updatedAt := now);
    if eventId.None? then
      Success(settled)
    else
      var cooldown := Some(now + rule.cooldownSeconds * SECOND);
      match EventTypeFor(target)
      case Failure(detail) => Failure(detail)
      case Success(eventType) =>
        Success(settled.(
          lastEventId := eventId,
          lastEventType := Some(eventType),
          lastEventAt := Some(now),
          enterCooldownUntil := if target == Inside then cooldown else state.enterCooldownUntil,
          exitCooldownUntil := if target == Outside then cooldown else state.exitCooldownUntil))
  }

  /** A cooldown ends at its exact boundary. */
  function ActiveDeadline(deadline: Option<Time>, now: Time): Option<Time>
  {
    if deadline.Some? && deadline.value > now then deadline else None
  }

  /** What recovery makes of a stored state: the same, with ended cooldowns cleared. */
  function RecoveredState(state: RuntimeState, now: Time): RuntimeState
  {
    state.(
      enterCooldownUntil := ActiveDeadline(state.enterCooldownUntil, now),
      exitCooldownUntil := ActiveDeadline(state.exitCooldownUntil, now),
      updatedAt := now)
  }

  predicate PendingComplete(state: RuntimeState)
  {
    state.pendingTransition.Some? && state.pendingStartedAt.Some? && state.pendingDeadline.Some?
  }

  predicate PendingAbsent(state: RuntimeState)
  {
    state.pendingTransition.None? && state.pendingStartedAt.None? && state.pendingDeadline.None?
  }

  function BuildConfirmedTransition(
    rule: Rule, source: Source, state: RuntimeState, now: Time, generation: nat, eventId: Id)
    : Result<ConfirmedTransition, Detail>
  {
    if !PendingComplete(state) then
      Failure("pending transition is incomplete")
    else
      var target := state.pendingTransition.value;
      match (ConfirmedState(state, target, now, Some(eventId), rule), EventTypeFor(target))
      case (Success(confirmed), Success(eventType)) =>
        Success(ConfirmedTransition(
          eventId, rule.id, rule.tracker, rule.place, rule.journal,
          eventType, source, target,
          state.pendingStartedAt.value, now, generation, state.pendingDeadline.value,
          state.latestCoordinates, state.latestAccuracy, confirmed))
      case (Failure(detail), _) => Failure(detail)
      case (_, Failure(detail)) => Failure(detail)
  }

  /** The event row that a confirmed transition appends. */
  function EventOf(transition: ConfirmedTransition): LocationEvent
  {
    LocationEvent(
      transition.journalId, Some(transition.ruleId), transition.trackerId, transition.placeId,
      transition.eventType, transition.occurredAt, transition.confirmedAt,
      transition.coordinates, transition.accuracy, transition.source,
      Confirmed, None, None,
      Some(transition.generation), Some(transition.confirmedDeadline),
      transition.confirmedAt, transition.confirmedAt)
  }
}
