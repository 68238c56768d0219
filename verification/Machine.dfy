/** One transition engine as a state machine.

    Each step reads the clock at most once and makes at most one durable write,
    so a process that dies anywhere dies between two steps. The program counter
    says what a step that still holds the engine's lock will do next. Clock
    readings, re-check answers and fresh identifiers are inputs, so nothing
    here assumes that the clock runs forward. */
module Machine {
  import opened Wrappers
  import opened Models
  import opened RuntimeStates

  /** Where the step that holds the lock will continue. */
  datatype Pc =
    | Idle               // the lock is free
    | Check              // a sample refreshed the pending transition; compare the clock with its deadline
    | Restore            // schedule the pending deadline, or confirm when it is due
    | Confirm            // confirm the pending transition, or wait on when it is early
    | Notify(event: Id)  // the event is committed; tell the observer

  datatype Engine = Engine(
    rule: Rule,
    source: Source,
    storeCoordinates: bool,
    accepting: bool,
    state: Option<RuntimeState>,
    pc: Pc)

  /** The columns of the unique index over automatic events, for one rule. */
  datatype Key = Key(generation: nat, deadline: Time)

  /** What the database holds for one rule: its runtime row and the keys of its retained events. */
  datatype Disk = Disk(row: Option<RuntimeState>, keys: set<Key>)

  datatype Input =
    | Ignored                                              // an unusable sample
    | Sample(observation: Observation, now: Time)
    | Fire(generation: nat)                                // a deadline callback takes the lock
    | Tick(now: Time, answer: Option<Presence>, newId: Id) // the lock holder reads the clock
    | Announce                                             // the lock holder notifies its observer
    | Suspend
    | Deactivate

  /** What a step did, for the record. */
  datatype Effect =
    | Nothing
    | Baseline(presence: Presence)
    | Agreed(presence: Presence)
    | Refreshed(presence: Presence)
    | Began(target: Presence, rule: Rule)
    | Silent
    | Cancelled(answer: Presence)
    | Suppressed(flip: Flip)
    | Committed(flip: Flip, transition: ConfirmedTransition)
    | Duplicate(target: Presence)
    | Announced(event: Id)
    | Erased
    | Broken(detail: Detail)

  /** A confirmed change of presence, and the cooldown its event would open. */
  datatype Flip = Flip(target: Presence, at: Time, window: Time)

  datatype Outcome = Outcome(engine: Engine, disk: Disk, effect: Effect)

  function Step(e: Engine, d: Disk, input: Input): Outcome
  {
    match input
    case Ignored => Outcome(e, d, Nothing)
    case Sample(observation, now) =>
      if e.pc.Idle? && e.accepting then Accept(e, d, observation, now) else Outcome(e, d, Nothing)
    case Fire(generation) =>
      if e.pc.Idle? && e.accepting then Outcome(EnterConfirm(e, generation), d, Nothing) else Outcome(e, d, Nothing)
    case Tick(now, answer, newId) => Continue(e, d, now, answer, newId)
    case Announce =>
      if e.pc.Notify? then Outcome(e.(pc := Idle), d, Announced(e.pc.event)) else Outcome(e, d, Nothing)
    case Suspend =>
      if e.pc.Idle? then Outcome(e.(accepting := false), d, Nothing) else Outcome(e, d, Nothing)
    case Deactivate =>
      if e.pc.Idle? then
        Outcome(e.(accepting := false, state := None), d.(row := None), Erased)
      else
        Outcome(e, d, Nothing)
  }

  /** Memory and row change together: a state is written as soon as it is adopted. */
  function Adopt(e: Engine, d: Disk, state: RuntimeState, pc: Pc, effect: Effect): Outcome
  {
    Outcome(e.(state := Some(state), pc := pc), d.(row := Some(state)), effect)
  }

  function Accept(e: Engine, d: Disk, o: Observation, now: Time): Outcome
  {
    if e.state.None? then
      if o.presence == Unknown then
        Outcome(e, d, Nothing)
      else
        Adopt(e, d, BaselineState(e.rule, o, now, e.storeCoordinates), Idle, Baseline(o.presence))
    else
      var s := e.state.value;
      if IsStale(s, o) || o.presence == Unknown then
        Outcome(e, d, Nothing)
      else if o.presence == s.presence then
        Adopt(e, d, AcceptedStateUpdate(s, o, now, e.storeCoordinates, true), Idle, Agreed(o.presence))
      else if s.pendingTransition == Some(o.presence) then
        Adopt(e, d, AcceptedStateUpdate(s, o, now, e.storeCoordinates, false),
              if s.pendingDeadline.Some? then Check else Idle, Refreshed(o.presence))
      else
        Adopt(e, d, PendingState(e.rule, s, o, now, e.storeCoordinates), Restore,
              Began(o.presence, e.rule))
  }

  /** A sample older than the last processed one is dropped. */
  predicate IsStale(s: RuntimeState, o: Observation)
  {
    s.lastProcessedAt.Some? && o.observedAt < s.lastProcessedAt.value
  }

  /** Entry into confirmation: an outdated generation or a missing pending transition ends the step. */
  function EnterConfirm(e: Engine, generation: nat): Engine
  {
    e.(pc := if IsCurrent(e, generation) then Confirm else Idle)
  }

  predicate IsCurrent(e: Engine, generation: nat)
  {
    e.state.Some? && e.state.value.pendingGeneration == generation && PendingComplete(e.state.value)
  }

  function Continue(e: Engine, d: Disk, now: Time, answer: Option<Presence>, newId: Id): Outcome
  {
    match e.pc
    case Idle => Outcome(e, d, Nothing)
    case Notify(_) => Outcome(e, d, Nothing)
    case Confirm =>
      if e.state.None? || !PendingComplete(e.state.value) then
        Outcome(e.(pc := Idle), d, Nothing)
      else if now < e.state.value.pendingDeadline.value then
        Outcome(e.(pc := Restore), d, Nothing)
      else
        Decide(e, d, e.state.value, now, answer, newId)
    case _ =>
      // Check or Restore: leave when there is no deadline or it is still ahead.
      if e.state.None? || e.state.value.pendingDeadline.None? || now < e.state.value.pendingDeadline.value then
        Outcome(e.(pc := Idle), d, Nothing)
      else
        Outcome(EnterConfirm(e, e.state.value.pendingGeneration), d, Nothing)
  }

  /** The deadline has passed: act on what the re-check answers. */
  function Decide(e: Engine, d: Disk, s: RuntimeState, now: Time, answer: Option<Presence>, newId: Id): Outcome
    requires PendingComplete(s)
  {
    var target := s.pendingTransition.value;
    if answer.None? then
      Outcome(e.(pc := Idle), d, Silent)
    else if answer.value != target then
      Adopt(e, d, WithoutPending(s).(updatedAt := now), Idle, Cancelled(answer.value))
    else
      var flip := Flip(target, now, e.rule.cooldownSeconds * SECOND);
      var cooldown := DirectionCooldown(s, target);
      if cooldown.Some? && now < cooldown.value then
        match ConfirmedState(s, target, now, None, e.rule)
        case Success(corrected) => Adopt(e, d, corrected, Idle, Suppressed(flip))
        case Failure(detail) => Outcome(e.(pc := Idle), d, Broken(detail))
      else
        match BuildConfirmedTransition(e.rule, e.source, s, now, s.pendingGeneration, newId)
        case Failure(detail) => Outcome(e.(pc := Idle), d, Broken(detail))
        case Success(transition) => Commit(e, d, flip, transition)
  }

  /** The idempotent append: the event key is looked up first, and the loser adopts the stored row. */
  function Commit(e: Engine, d: Disk, flip: Flip, transition: ConfirmedTransition): Outcome
  {
    var key := Key(transition.generation, transition.confirmedDeadline);
    if key !in d.keys then
      Outcome(
        e.(state := Some(transition.runtimeState), pc := Notify(transition.eventId)),
        Disk(Some(transition.runtimeState), d.keys + {key}),
        Committed(flip, transition))
    else if d.row.None? then
      Outcome(e.(pc := Idle), d, Broken("duplicate event has no committed runtime state"))
    else
      Outcome(e.(state := d.row, pc := Idle), d, Duplicate(flip.target))
  }

  /** A fresh engine over what the database holds. */
  function Recover(rule: Rule, source: Source, storeCoordinates: bool, d: Disk, now: Time): Outcome
  {
    if !rule.enabled then
      Outcome(Engine(rule, source, storeCoordinates, false, None, Idle), d.(row := None), Erased)
    else if d.row.None? then
      Outcome(Engine(rule, source, storeCoordinates, true, None, Idle), d, Nothing)
    else
      var recovered := RecoveredState(d.row.value, now);
      Outcome(
        Engine(rule, source, storeCoordinates, true, Some(recovered),
               if recovered.pendingTransition.Some? then Restore else Idle),
        d.(row := Some(recovered)),
        Nothing)
  }
}
