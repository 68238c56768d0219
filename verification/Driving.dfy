/** A whole engine operation as a function: the steps of the machine, one after the
    other, until the lock is free again. */
module Driving {
  import opened Wrappers
  import opened Models
  import opened RuntimeStates
  import opened Machine
  import opened Host
  import opened Safety
  import opened Tables
  import opened Alarms

  /** What the host will supply next. */
  datatype Supply = Supply(tape: seq<Time>, last: Time, answers: seq<ReChecked>, nextId: Id)

  datatype System = System(
    engine: Engine, disk: Disk, alarm: Alarm, notes: seq<Id>, supply: Supply, raised: Option<Detail>)

  /** A new engine object over this stored part: no memory, no timers, and nothing announced yet. */
  function Newborn(rule: Rule, source: Source, storeCoordinates: bool, d: Disk, p: Supply): System
  {
    System(Engine(rule, source, storeCoordinates, true, None, Idle), d, NO_ALARM, [], p, None)
  }

  /** The lock holder has something to compare with the clock. */
  predicate Reads(e: Engine)
  {
    && e.state.Some?
    && if e.pc.Confirm? then PendingComplete(e.state.value)
       else (e.pc.Check? || e.pc.Restore?) && e.state.value.pendingDeadline.Some?
  }

  /** A confirmation that finds its deadline reached consults the re-check. */
  predicate Consults(s: System)
  {
    Reads(s.engine) && s.engine.pc.Confirm?
    && s.engine.state.value.pendingDeadline.value <= Reading(s.supply.tape, s.supply.last)
  }

  /** What the next re-check answers for the state that the engine remembers. */
  function Answering(s: System): Option<Presence>
  {
    if s.engine.state.None? then None else Answer(s.supply.answers, s.engine.state.value)
  }

  function NextInput(s: System): Input
  {
    if s.engine.pc.Notify? then Announce
    else Tick(Reading(s.supply.tape, s.supply.last), Answering(s), s.supply.nextId)
  }

  function Consumed(s: System, effect: Effect): Supply
  {
    if !Reads(s.engine) then s.supply
    else Supply(
      Rest(s.supply.tape),
      Reading(s.supply.tape, s.supply.last),
      if Consults(s) then Rest(s.supply.answers) else s.supply.answers,
      if effect.Committed? || effect.Duplicate? || (effect.Broken? && Consults(s)) then s.supply.nextId + 1
      else s.supply.nextId)
  }

  /** One step of the lock holder. */
  function Turn(s: System): System
  {
    var input := NextInput(s);
    var o := Machine.Step(s.engine, s.disk, input);
    System(
      o.engine, o.disk, Handle(s.engine, s.disk, input, s.alarm),
      if o.effect.Announced? then s.notes + [o.effect.event] else s.notes,
      Consumed(s, o.effect),
      if o.effect.Broken? then Some(o.effect.detail) else s.raised)
  }

  /** An upper bound on the turns left once the clock stands still. */
  function Rank(e: Engine, last: Time): nat
  {
    if e.pc.Idle? then 0
    else if e.pc.Notify? || !Reads(e) then 1
    else if e.state.value.pendingDeadline.value <= last then
      if e.pc.Confirm? then 2 else 3
    else
      if e.pc.Confirm? then 2 else 1
  }

  /** The turns get fewer: either a reading has been used up, or the bound has sunk. */
  predicate Progresses(s: System, u: System)
  {
    || |u.supply.tape| < |s.supply.tape|
    || (|u.supply.tape| == |s.supply.tape| && Rank(u.engine, u.supply.last) < Rank(s.engine, s.supply.last))
  }

  lemma BlindTurnProgresses(s: System)
    requires !s.engine.pc.Idle? && !Reads(s.engine)
    ensures Turn(s).engine.pc.Idle? && Turn(s).supply == s.supply
  {
  }

  /** When the clock stands still. */
  lemma StandingTurnProgresses(s: System)
    requires Reads(s.engine) && s.supply.tape == []
    ensures Turn(s).supply.tape == [] && Turn(s).supply.last == s.supply.last
    ensures Rank(Turn(s).engine, s.supply.last) < Rank(s.engine, s.supply.last)
  {
  }

  lemma TurnProgresses(s: System)
    requires !s.engine.pc.Idle?
    ensures Progresses(s, Turn(s))
  {
    if !Reads(s.engine) {
      BlindTurnProgresses(s);
    } else if s.supply.tape == [] {
      StandingTurnProgresses(s);
    }
  }

  function Drive(s: System): System
    decreases |s.supply.tape|, Rank(s.engine, s.supply.last)
  {
    if s.engine.pc.Idle? then s
    else
      TurnProgresses(s);
      Drive(Turn(s))
  }

  /** One turn of a drive. */
  lemma DriveTurn(s: System)
    requires !s.engine.pc.Idle?
    ensures Drive(s) == Drive(Turn(s))
  {
  }

  lemma DriveRests(s: System)
    requires s.engine.pc.Idle?
    ensures Drive(s) == s
  {
  }

  /** A turn that ends the step is the whole drive. */
  lemma LastTurn(s: System, u: System)
    requires !s.engine.pc.Idle? && Turn(s) == u && u.engine.pc.Idle?
    ensures Drive(s) == u
  {
    DriveTurn(s);
    DriveRests(u);
  }

  /** An input without a clock reading of its own, and everything that follows from it. */
  function Operate(s: System, input: Input): System
  {
    var o := Machine.Step(s.engine, s.disk, input);
    Drive(s.(engine := o.engine, disk := o.disk, alarm := Handle(s.engine, s.disk, input, s.alarm)))
  }

  /** A sample reads the clock only when it changes something. */
  function Observed(s: System, observation: Observation): System
  {
    var input := Sample(observation, Reading(s.supply.tape, s.supply.last));
    var o := Machine.Step(s.engine, s.disk, input);
    var r := if o.effect.Nothing? then s else Read(s);
    Drive(r.(engine := o.engine, disk := o.disk, alarm := Handle(s.engine, s.disk, input, s.alarm)))
  }

  /** Recovery reads the clock only when there is a row to recover. */
  function Recovered(s: System): System
  {
    var e := s.engine;
    var o := Machine.Recover(e.rule, e.source, e.storeCoordinates, s.disk, Reading(s.supply.tape, s.supply.last));
    var r := if !e.rule.enabled || s.disk.row.None? then s else Read(s);
    Drive(r.(engine := o.engine, disk := o.disk))
  }

  /** A cooldown is kept only while it lasts; it ends at its exact boundary. */
  function Lasting(cooldown: Option<Time>, now: Time): Option<Time>
  {
    if cooldown.None? || cooldown.value <= now then None else cooldown
  }

  /** Recovery over a row: memory and row are the stored row without the cooldowns that have ended by the
      first reading; a pending transition is resumed as it is, and nothing else happens without one. */
  lemma RecoveredRow(s: System)
    requires s.engine.rule.enabled && s.disk.row.Some?
    ensures
      var (row, now) := (s.disk.row.value, Reading(s.supply.tape, s.supply.last));
      var kept := Some(row.(
        enterCooldownUntil := Lasting(row.enterCooldownUntil, now),
        exitCooldownUntil := Lasting(row.exitCooldownUntil, now),
        updatedAt := now));
      var pc := if row.pendingTransition.Some? then Restore else Idle;
      var u := s.(
        engine := s.engine.(accepting := true, state := kept, pc := pc), disk := s.disk.(row := kept),
        supply := s.supply.(tape := Rest(s.supply.tape), last := now));
      && Recovered(s) == Drive(u)
      && (row.pendingTransition.None? ==> Recovered(s) == u)
  {
  }

  function Read(s: System): System
  {
    s.(supply := s.supply.(tape := Rest(s.supply.tape), last := Reading(s.supply.tape, s.supply.last)))
  }

  // ----- the turns of a confirmation, one by one -----

  /** A due confirmation of a well-shaped state, and what its re-check answers. */
  predicate Asked(s: System, answer: Option<Presence>)
  {
    Consults(s) && Shaped(s.engine.state.value) && s.raised.None? && answer == Answering(s)
  }

  /** The clock and the re-check have been read. */
  function AfterReCheck(s: System): System
  {
    var r := Read(s);
    r.(supply := r.supply.(answers := Rest(s.supply.answers)))
  }

  lemma EarlyTurn(s: System)
    requires s.engine.pc.Confirm? && Reads(s.engine) && !Consults(s)
    ensures Turn(s) == Read(s).(engine := s.engine.(pc := Restore))
    ensures Drive(s) == Drive(Turn(s))
  {
    EarlyTick(s);
    DriveTurn(s);
  }

  lemma EarlyTick(s: System)
    requires s.engine.pc.Confirm? && Reads(s.engine) && !Consults(s)
    ensures Machine.Step(s.engine, s.disk, NextInput(s)) == Outcome(s.engine.(pc := Restore), s.disk, Nothing)
    ensures Handle(s.engine, s.disk, NextInput(s), s.alarm) == s.alarm
  {
  }

  lemma RestoreTurn(s: System)
    requires s.engine.pc.Restore? && s.engine.state.Some?
    ensures
      var pending := s.engine.state.value;
      var idle := s.engine.(pc := Idle);
      Turn(s) ==
      if pending.pendingDeadline.None? then s.(engine := idle)
      else if pending.pendingDeadline.value <= Reading(s.supply.tape, s.supply.last) then
        Read(s).(engine := EnterConfirm(s.engine, pending.pendingGeneration))
      else
        var delay := pending.pendingDeadline.value - Read(s).supply.last;
        Read(s).(engine := idle, alarm := Schedule(s.alarm, pending.pendingGeneration, delay))
    ensures Drive(s) == Drive(Turn(s))
  {
    RestoreTick(s);
    DriveTurn(s);
  }

  lemma RestoreTick(s: System)
    requires s.engine.pc.Restore? && s.engine.state.Some?
    ensures
      var (e, now) := (s.engine, Reading(s.supply.tape, s.supply.last));
      var due := e.state.value.pendingDeadline.Some? && e.state.value.pendingDeadline.value <= now;
      && Machine.Step(e, s.disk, NextInput(s)) ==
         Outcome(if due then EnterConfirm(e, e.state.value.pendingGeneration) else e.(pc := Idle), s.disk, Nothing)
      && Handle(e, s.disk, NextInput(s), s.alarm) ==
         if Waits(e, now) then Schedule(s.alarm, e.state.value.pendingGeneration, Remaining(e, now)) else s.alarm
  {
  }

  /** The turn of a due confirmation, from what deciding it makes of the engine. */
  lemma DecidingTurn(s: System, o: Outcome)
    requires Consults(s)
    requires
      o == Decide(s.engine, s.disk, s.engine.state.value, Read(s).supply.last, Answering(s),
          s.supply.nextId)
    ensures
      Turn(s) == System(
        o.engine, o.disk, Handle(s.engine, s.disk, NextInput(s), s.alarm),
        if o.effect.Announced? then s.notes + [o.effect.event] else s.notes,
        Consumed(s, o.effect),
        if o.effect.Broken? then Some(o.effect.detail) else s.raised)
    ensures Machine.Step(s.engine, s.disk, NextInput(s)) == o
  {
  }

  function SilentEnd(s: System): System
    requires Consults(s)
  {
    AfterReCheck(s).(
      engine := s.engine.(pc := Idle),
      alarm := s.alarm.(held := None, silent := Some(s.engine.state.value.pendingGeneration)))
  }

  lemma SilentTurn(s: System)
    requires Asked(s, None)
    ensures Turn(s) == SilentEnd(s)
  {
    DecidingTurn(s, Outcome(s.engine.(pc := Idle), s.disk, Silent));
  }

  lemma SilentDrive(s: System)
    requires Asked(s, None)
    ensures Drive(s) == SilentEnd(s)
  {
    SilentTurn(s);
    LastTurn(s, SilentEnd(s));
  }

  function CancelEnd(s: System): System
    requires Consults(s)
  {
    var cancelled := WithoutPending(s.engine.state.value).(updatedAt := AfterReCheck(s).supply.last);
    AfterReCheck(s).(
      engine := s.engine.(state := Some(cancelled), pc := Idle),
      disk := s.disk.(row := Some(cancelled)),
      alarm := s.alarm.(held := None))
  }

  lemma CancelTurn(s: System)
    requires Consults(s) && Asked(s, Answering(s)) && Answering(s).Some?
    requires Answering(s) != s.engine.state.value.pendingTransition
    ensures Turn(s) == CancelEnd(s)
  {
    var cancelled := WithoutPending(s.engine.state.value).(updatedAt := Read(s).supply.last);
    DecidingTurn(s, Machine.Adopt(s.engine, s.disk, cancelled, Idle, Cancelled(Answering(s).value)));
  }

  lemma CancelDrive(s: System)
    requires Consults(s) && Asked(s, Answering(s)) && Answering(s).Some?
    requires Answering(s) != s.engine.state.value.pendingTransition
    ensures Drive(s) == CancelEnd(s)
  {
    CancelTurn(s);
    LastTurn(s, CancelEnd(s));
  }

  predicate Cooling(s: System)
    requires Consults(s)
  {
    var pending := s.engine.state.value;
    var cooldown := DirectionCooldown(pending, pending.pendingTransition.value);
    cooldown.Some? && Read(s).supply.last < cooldown.value
  }

  function Corrected(s: System): RuntimeState
    requires Consults(s)
  {
    WithoutPending(s.engine.state.value).(
      presence := s.engine.state.value.pendingTransition.value, updatedAt := Read(s).supply.last)
  }

  function SuppressEnd(s: System): System
    requires Consults(s)
  {
    AfterReCheck(s).(
      engine := s.engine.(state := Some(Corrected(s)), pc := Idle),
      disk := s.disk.(row := Some(Corrected(s))))
  }

  lemma SuppressTurn(s: System)
    requires Consults(s) && Asked(s, s.engine.state.value.pendingTransition) && Cooling(s)
    ensures Turn(s) == SuppressEnd(s)
  {
    var target := s.engine.state.value.pendingTransition.value;
    var flip := Flip(target, Read(s).supply.last, s.engine.rule.cooldownSeconds * SECOND);
    DecidingTurn(s, Machine.Adopt(s.engine, s.disk, Corrected(s), Idle, Suppressed(flip)));
  }

  lemma SuppressDrive(s: System)
    requires Consults(s) && Asked(s, s.engine.state.value.pendingTransition) && Cooling(s)
    ensures
      var pending := s.engine.state.value;
      ConfirmedState(pending, pending.pendingTransition.value, Read(s).supply.last, None, s.engine.rule) ==
      Success(Corrected(s))
    ensures Drive(s) == SuppressEnd(s)
  {
    SuppressTurn(s);
    LastTurn(s, SuppressEnd(s));
  }

  /** What the due confirmation would commit. */
  function Draft(s: System): Result<ConfirmedTransition, Detail>
    requires Consults(s)
  {
    var pending := s.engine.state.value;
    BuildConfirmedTransition(
      s.engine.rule, s.engine.source, pending, AfterReCheck(s).supply.last, pending.pendingGeneration, s.supply.nextId)
  }

  /** The supply after the identifier has been drawn as well. */
  function AfterDraw(s: System): System
  {
    var r := AfterReCheck(s);
    r.(supply := r.supply.(nextId := s.supply.nextId + 1))
  }

  lemma DraftSucceeds(s: System)
    requires Consults(s) && Shaped(s.engine.state.value)
    ensures Draft(s).Success?
    ensures Draft(s).value.eventId == s.supply.nextId
    ensures
      var (rule, c) := (s.engine.rule, Draft(s).value);
      c.ruleId == rule.id && c.trackerId == rule.tracker && c.placeId == rule.place && c.journalId == rule.journal
    ensures s.engine.state.value.ruleId == s.engine.rule.id ==> WellBuilt(Draft(s).value)
    ensures Shaped(Draft(s).value.runtimeState)
    ensures
      var (pending, c) := (s.engine.state.value, Draft(s).value);
      Key(c.generation, c.confirmedDeadline) == Key(pending.pendingGeneration, pending.pendingDeadline.value)
  {
  }

  function PendingKeyOf(s: System): Key
    requires Consults(s)
  {
    Key(s.engine.state.value.pendingGeneration, s.engine.state.value.pendingDeadline.value)
  }

  predicate Records(s: System)
  {
    Consults(s) && Asked(s, s.engine.state.value.pendingTransition) && !Cooling(s)
  }

  /** The turn that appends: what the append makes of the engine. */
  lemma RecordTurn(s: System, o: Outcome)
    requires Records(s) && Draft(s).Success?
    requires
      var pending := s.engine.state.value;
      var flip := Flip(pending.pendingTransition.value, Read(s).supply.last, s.engine.rule.cooldownSeconds * SECOND);
      o == Commit(s.engine, s.disk, flip, Draft(s).value)
    ensures Turn(s).engine == o.engine && Turn(s).disk == o.disk && Turn(s).notes == s.notes
    ensures Turn(s).alarm == Handle(s.engine, s.disk, NextInput(s), s.alarm)
    ensures Turn(s).supply == Consumed(s, o.effect)
    ensures Turn(s).raised == if o.effect.Broken? then Some(o.effect.detail) else s.raised
    ensures Machine.Step(s.engine, s.disk, NextInput(s)) == o
  {
    DecidingTurn(s, o);
  }

  /** The event is committed and not yet announced. */
  function CommitMiddle(s: System): System
    requires Consults(s) && Draft(s).Success?
  {
    var c := Draft(s).value;
    AfterDraw(s).(
      engine := s.engine.(state := Some(c.runtimeState), pc := Notify(c.eventId)),
      disk := Disk(Some(c.runtimeState), s.disk.keys + {Key(c.generation, c.confirmedDeadline)}))
  }

  lemma CommitTurn(s: System)
    requires Records(s) && PendingKeyOf(s) !in s.disk.keys
    ensures Draft(s).Success? && Turn(s) == CommitMiddle(s)
  {
    DraftSucceeds(s);
    var flip := Flip(s.engine.state.value.pendingTransition.value, Read(s).supply.last,
                     s.engine.rule.cooldownSeconds * SECOND);
    RecordTurn(s, Commit(s.engine, s.disk, flip, Draft(s).value));
  }

  lemma NotifyDrive(s: System)
    requires s.engine.pc.Notify?
    ensures
      Drive(s) == s.(engine := s.engine.(pc := Idle), notes := s.notes + [s.engine.pc.event],
                     alarm := s.alarm.(held := None))
  {
    LastTurn(s, s.(engine := s.engine.(pc := Idle), notes := s.notes + [s.engine.pc.event],
                   alarm := s.alarm.(held := None)));
  }

  lemma CommitDrive(s: System)
    requires Records(s) && PendingKeyOf(s) !in s.disk.keys
    ensures Draft(s).Success?
    ensures
      var (u, c) := (CommitMiddle(s), Draft(s).value);
      Drive(s) == u.(engine := u.engine.(pc := Idle), notes := s.notes + [c.eventId], alarm := s.alarm.(held := None))
  {
    CommitTurn(s);
    DriveTurn(s);
    NotifyDrive(CommitMiddle(s));
  }

  function DuplicateEnd(s: System): System
    requires Consults(s)
  {
    if s.disk.row.None? then
      AfterDraw(s).(
        engine := s.engine.(pc := Idle),
        raised := Some("duplicate event has no committed runtime state"))
    else
      AfterDraw(s).(
        engine := s.engine.(state := s.disk.row, pc := Idle),
        alarm := s.alarm.(held := None, refused := Some(s.engine.state.value.pendingGeneration)))
  }

  lemma DuplicateTurn(s: System)
    requires Records(s) && PendingKeyOf(s) in s.disk.keys
    ensures Turn(s) == DuplicateEnd(s)
  {
    DraftSucceeds(s);
    var flip := Flip(s.engine.state.value.pendingTransition.value, Read(s).supply.last,
                     s.engine.rule.cooldownSeconds * SECOND);
    RecordTurn(s, Commit(s.engine, s.disk, flip, Draft(s).value));
  }

  lemma DuplicateDrive(s: System)
    requires Records(s) && PendingKeyOf(s) in s.disk.keys
    ensures Drive(s) == DuplicateEnd(s)
  {
    DuplicateTurn(s);
    LastTurn(s, DuplicateEnd(s));
  }

  /** What committing a transition makes of the system: the winner's event is there and announced,
      the loser takes over the stored row. */
  function Adopted(u: System, c: ConfirmedTransition, generation: nat): System
  {
    var key := Key(c.generation, c.confirmedDeadline);
    if key !in u.disk.keys then
      u.(engine := u.engine.(state := Some(c.runtimeState), pc := Idle),
         disk := Disk(Some(c.runtimeState), u.disk.keys + {key}),
         notes := u.notes + [c.eventId],
         alarm := u.alarm.(held := None))
    else if u.disk.row.None? then
      u.(engine := u.engine.(pc := Idle), raised := Some("duplicate event has no committed runtime state"))
    else
      u.(engine := u.engine.(state := u.disk.row, pc := Idle),
         alarm := u.alarm.(held := None, refused := Some(generation)))
  }

  lemma RecordDrive(s: System)
    requires Records(s)
    ensures Draft(s).Success?
    ensures Drive(s) == Adopted(AfterDraw(s), Draft(s).value, s.engine.state.value.pendingGeneration)
  {
    DraftSucceeds(s);
    if PendingKeyOf(s) in s.disk.keys {
      DuplicateDrive(s);
    } else {
      CommitDrive(s);
    }
  }

  // ----- accepting a sample -----

  /** Adopting a state under the lock, at the reading just made. */
  function Adopting(s: System, state: RuntimeState, pc: Pc, alarm: Alarm): System
  {
    Read(s).(
      engine := s.engine.(state := Some(state), pc := pc),
      disk := s.disk.(row := Some(state)),
      alarm := alarm)
  }

  predicate Open(s: System)
  {
    s.engine.pc.Idle? && s.engine.accepting
  }

  lemma DroppedSample(s: System, o: Observation)
    requires s.engine.pc.Idle?
    requires
      || !s.engine.accepting
      || o.presence == Unknown
      || (s.engine.state.Some? && IsStale(s.engine.state.value, o))
    ensures Observed(s, o) == s
  {
  }

  lemma BaselineSample(s: System, o: Observation)
    requires Open(s) && s.engine.state.None? && o.presence != Unknown
    ensures
      var baseline := BaselineState(s.engine.rule, o, Read(s).supply.last, s.engine.storeCoordinates);
      Observed(s, o) == Adopting(s, baseline, Idle, s.alarm)
  {
  }

  /** The sample is processed by the engine's confirmed state. */
  predicate Processes(s: System, o: Observation)
  {
    Open(s) && s.engine.state.Some? && o.presence != Unknown && !IsStale(s.engine.state.value, o)
  }

  lemma AgreeingSample(s: System, o: Observation)
    requires Processes(s, o) && o.presence == s.engine.state.value.presence
    ensures
      var stable := AcceptedStateUpdate(s.engine.state.value, o, Read(s).supply.last, s.engine.storeCoordinates, true);
      Observed(s, o) == Adopting(s, stable, Idle, Cancel(s.alarm))
  {
  }

  lemma RefreshingSample(s: System, o: Observation)
    requires Processes(s, o) && o.presence != s.engine.state.value.presence
    requires s.engine.state.value.pendingTransition == Some(o.presence)
    ensures
      var latest := AcceptedStateUpdate(s.engine.state.value, o, Read(s).supply.last, s.engine.storeCoordinates, false);
      Observed(s, o) ==
      Drive(Adopting(s, latest, if latest.pendingDeadline.Some? then Check else Idle, s.alarm))
  {
  }

  lemma BeginningSample(s: System, o: Observation)
    requires Processes(s, o) && o.presence != s.engine.state.value.presence
    requires s.engine.state.value.pendingTransition != Some(o.presence)
    ensures
      var pending := PendingState(s.engine.rule, s.engine.state.value, o, Read(s).supply.last,
          s.engine.storeCoordinates);
      Observed(s, o) == Drive(Adopting(s, pending, Restore, Cancel(s.alarm).(silent := None, refused := None)))
  {
  }

  lemma CheckTurn(s: System)
    requires s.engine.pc.Check? && s.engine.state.Some? && s.engine.state.value.pendingDeadline.Some?
    ensures
      var latest := s.engine.state.value;
      Drive(s) ==
      if Read(s).supply.last < latest.pendingDeadline.value then Read(s).(engine := s.engine.(pc := Idle))
      else Drive(Read(s).(engine := EnterConfirm(s.engine, latest.pendingGeneration)))
  {
    assert Drive(s) == Drive(Turn(s));
  }
}
