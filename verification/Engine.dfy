/** The transition engine as the program writes it: an object whose methods update its
    memory, its timer handle and the database, proved to do exactly what the machine does. */
module TransitionEngine {
  import opened Wrappers
  import opened Models
  import opened RuntimeStates
  import opened Machine
  import opened Safety
  import opened Tables
  import Operations
  import opened Database
  import opened Host
  import opened Alarms
  import opened Driving

  class RuleTransitionEngine {
    const rule: Rule
    const source: Source
    const storeCoordinates: bool
    const db: Connection
    const clock: Clock
    const scheduler: Scheduler
    const ids: IdFactory
    const evaluator: Evaluator
    const observer: Observer

    var state: Option<RuntimeState>
    var scheduled: Option<nat>
    var accepting: bool
    ghost var alarm: Alarm // the machine's view of this engine's timers

    ghost predicate Valid()
      reads this, db, scheduler, ids
    {
      && !db.open && Timed()
      && Grounded(db.committed, rule, state)
      && (forall id :: id in db.committed.events ==> id < ids.next)
    }

    /** The machine's view of the timers is right. */
    ghost predicate Timed()
      reads this, scheduler
    {
      && alarm.held == scheduled && alarm.timers == scheduler.timers
      && alarm.delays == scheduler.delays && alarm.next == scheduler.next
    }

    /** This engine and everything it works on, with the lock holder at `pc`. */
    ghost function Sys(pc: Pc, raised: Option<Detail>): System
      reads this, db, clock, observer, evaluator, ids
    {
      System(
        Engine(rule, source, storeCoordinates, accepting, state, pc),
        DiskOf(db.committed, rule.id), alarm, observer.notes,
        Supply(clock.tape, clock.last, evaluator.answers, ids.next), raised)
    }

    /** The same between two calls, without the supplies that it shares with others. */
    ghost function Own(): System
      reads this, db, observer, evaluator
    {
      System(
        Engine(rule, source, storeCoordinates, accepting, state, Idle),
        DiskOf(db.committed, rule.id), alarm, observer.notes, Supply([], 0, evaluator.answers, 0), None)
    }

    constructor (
      rule: Rule, source: Source, storeCoordinates: bool, db: Connection, clock: Clock, scheduler: Scheduler,
      ids: IdFactory, evaluator: Evaluator, observer: Observer)
      requires !db.open && Grounded(db.committed, rule, None)
      requires forall id :: id in db.committed.events ==> id < ids.next
      ensures Valid() && accepting && state.None? && scheduled.None?
      ensures this.rule == rule && this.source == source && this.storeCoordinates == storeCoordinates
      ensures this.db == db && this.clock == clock && this.scheduler == scheduler
      ensures this.ids == ids && this.evaluator == evaluator && this.observer == observer
      ensures alarm == Alarm(None, scheduler.timers, multiset{}, scheduler.next, scheduler.delays, None, None)
    {
      this.rule, this.source, this.storeCoordinates := rule, source, storeCoordinates;
      this.db, this.clock, this.scheduler := db, clock, scheduler;
      this.ids, this.evaluator, this.observer := ids, evaluator, observer;
      state, scheduled, accepting := None, None, true;
      alarm := Alarm(None, scheduler.timers, multiset{}, scheduler.next, scheduler.delays, None, None);
    }

    // ----- storage -----

    /** Replace the runtime row; no constraint ever refuses it. */
    method Store(s: RuntimeState)
      requires !db.open && Grounded(db.committed, rule, Some(s))
      modifies db
      ensures !db.open && Grounded(db.committed, rule, Some(s))
      ensures db.committed.events == old(db.committed).events
      ensures DiskOf(db.committed, rule.id) == DiskOf(old(db.committed), rule.id).(row := Some(s))
      ensures Beside(old(db.committed), db.committed, rule.id)
    {
      SavedConsistent(db.committed, s);
      Operations.SavedView(db.committed, s, rule.id);
      var saved := db.SaveRuntimeState(s);
      assert saved.Success?;
    }

    /** Append the event and its row, unless the key is already there. */
    method Append(c: ConfirmedTransition) returns (created: bool)
      requires !db.open && Grounded(db.committed, rule, None)
      requires c.eventId !in db.committed.events && WellBuilt(c) && Shaped(c.runtimeState)
      requires c.ruleId == rule.id && c.trackerId == rule.tracker
      requires c.placeId == rule.place && c.journalId == rule.journal
      modifies db
      ensures !db.open && Grounded(db.committed, rule, if created then Some(c.runtimeState) else None)
      ensures !created ==> db.committed == old(db.committed)
      ensures db.committed.events.Keys == old(db.committed).events.Keys + if created then {c.eventId} else {}
      ensures
        var (d, key) := (DiskOf(old(db.committed), rule.id), Key(c.generation, c.confirmedDeadline));
        && created == (key !in d.keys)
        && DiskOf(db.committed, rule.id) == if created then Disk(Some(c.runtimeState), d.keys + {key}) else d
      ensures Beside(old(db.committed), db.committed, rule.id)
    {
      AppendedView(db.committed, rule, c);
      var result := db.ConfirmTransition(c);
      created := result.value.created;
    }

    /** Adopt a state: memory first, then the row. */
    method Keep(next: RuntimeState)
      requires !db.open && Timed() && Grounded(db.committed, rule, Some(next))
      requires forall id :: id in db.committed.events ==> id < ids.next
      modifies this`state, db
      ensures Valid() && state == Some(next)
      ensures Beside(old(db.committed), db.committed, rule.id)
      ensures Sys(Idle, None) == Kept(old(Sys(Idle, None)), next)
    {
      state := Some(next);
      Store(next);
    }

    // ----- the confirmation -----

    method ConfirmLocked(generation: nat) returns (raised: Option<Detail>)
      requires Valid()
      modifies this, db, clock, scheduler, ids, evaluator, observer
      ensures Valid()
      ensures Beside(old(db.committed), db.committed, rule.id)
      ensures
        var s := old(Sys(Idle, None));
        Sys(Idle, raised) == Drive(s.(engine := EnterConfirm(s.engine, generation)))
      decreases |clock.tape|, Rank(EnterConfirm(Sys(Idle, None).engine, generation), clock.last), 0
    {
      if state.None? || state.value.pendingGeneration != generation || !PendingComplete(state.value) {
        return None;
      }
      ghost var s := Sys(Confirm, None);
      var now := clock.UtcNow();
      if now < state.value.pendingDeadline.value {
        EarlyTurn(s);
        raised := RestorePendingLocked();
        return;
      }
      var reevaluated := evaluator.Evaluate(state.value);
      raised := Resolve(s, now, reevaluated);
    }

    /** The deadline has passed and the re-check has answered. */
    method Resolve(ghost s: System, now: Time, reevaluated: Option<Presence>) returns (raised: Option<Detail>)
      requires Valid() && Asked(s, reevaluated)
      requires Sys(Confirm, None) == AfterReCheck(s) && now == AfterReCheck(s).supply.last
      modifies this, db, ids, observer
      ensures Valid()
      ensures Beside(old(db.committed), db.committed, rule.id)
      ensures Sys(Idle, raised) == Drive(s)
    {
      var pending := state.value;
      var target := pending.pendingTransition.value;
      if reevaluated.None? {
        SilentDrive(s);
        scheduled := None;
        alarm := alarm.(held := None, silent := Some(pending.pendingGeneration));
        return None;
      }
      if reevaluated.value != target {
        CancelDrive(s);
        var cancelled := WithoutPending(pending).(updatedAt := now);
        state := Some(cancelled);
        Store(cancelled);
        scheduled := None;
        alarm := alarm.(held := None);
        return None;
      }
      var cooldown := DirectionCooldown(pending, target);
      if cooldown.Some? && now < cooldown.value {
        SuppressDrive(s);
        var corrected := ConfirmedState(pending, target, now, None, rule).value;
        state := Some(corrected);
        Store(corrected);
        return None;
      }
      raised := Record(s, now);
    }

    /** Build the transition under a fresh identifier and commit it. */
    method Record(ghost s: System, now: Time) returns (raised: Option<Detail>)
      requires Valid() && state.Some?
      requires Asked(s, state.value.pendingTransition) && Sys(Confirm, None) == AfterReCheck(s)
      requires now == AfterReCheck(s).supply.last
      requires !Cooling(s)
      modifies this, db, ids, observer
      ensures Valid()
      ensures Beside(old(db.committed), db.committed, rule.id)
      ensures Sys(Idle, raised) == Drive(s)
    {
      RecordDrive(s);
      DraftSucceeds(s);
      var pending := state.value;
      var id := ids.NextId();
      var transition := BuildConfirmedTransition(rule, source, pending, now, pending.pendingGeneration, id).value;
      assert transition == Draft(s).value;
      raised := Adopt(transition, pending.pendingGeneration);
    }

    /** Commit the event; the winner notifies, the loser adopts the stored row. */
    method Adopt(c: ConfirmedTransition, ghost generation: nat) returns (raised: Option<Detail>)
      requires Valid() && c.eventId !in db.committed.events && c.eventId < ids.next
      requires WellBuilt(c) && Shaped(c.runtimeState)
      requires c.ruleId == rule.id && c.trackerId == rule.tracker
      requires c.placeId == rule.place && c.journalId == rule.journal
      modifies this, db, observer
      ensures Valid()
      ensures Beside(old(db.committed), db.committed, rule.id)
      ensures Sys(Idle, raised) == Adopted(old(Sys(Confirm, None)), c, generation)
    {
      ghost var u := Sys(Confirm, None);
      var created := Append(c);
      assert Sys(Confirm, None) == u.(disk := DiskOf(db.committed, rule.id));
      if created {
        WonIsAdopted(u, c, generation, DiskOf(db.committed, rule.id));
        Won(c);
        raised := None;
      } else {
        LostIsAdopted(u, c, generation);
        raised := Lost(generation);
      }
    }

    method Won(c: ConfirmedTransition)
      requires !db.open && Timed()
      requires Grounded(db.committed, rule, Some(c.runtimeState))
      requires forall id :: id in db.committed.events ==> id < ids.next
      modifies this`state, this`scheduled, this`alarm, observer
      ensures Valid()
      ensures
        var u := old(Sys(Confirm, None));
        Sys(Idle, None) ==
        u.(engine := u.engine.(state := Some(c.runtimeState), pc := Idle),
           notes := u.notes + [c.eventId], alarm := u.alarm.(held := None))
    {
      state := Some(c.runtimeState);
      observer.OnTransition(c.eventId);
      scheduled := None;
      alarm := alarm.(held := None);
    }

    /** Right after losing, the loser's memory is the stored row. */
    method Lost(ghost generation: nat) returns (raised: Option<Detail>)
      requires Valid()
      modifies this`state, this`scheduled, this`alarm
      ensures Valid()
      ensures
        var u := old(Sys(Confirm, None));
        Sys(Idle, raised) ==
        if u.disk.row.None? then
          u.(engine := u.engine.(pc := Idle), raised := Some("duplicate event has no committed runtime state"))
        else
          u.(engine := u.engine.(state := u.disk.row, pc := Idle),
             alarm := u.alarm.(held := None, refused := Some(generation)))
    {
      var persisted := db.LoadRuntimeState(rule.id);
      if persisted.None? {
        return Some("duplicate event has no committed runtime state");
      }
      state := persisted;
      scheduled := None;
      alarm := alarm.(held := None, refused := Some(generation));
      return None;
    }

    method RestorePendingLocked() returns (raised: Option<Detail>)
      requires Valid() && state.Some?
      modifies this, db, clock, scheduler, ids, evaluator, observer
      ensures Valid()
      ensures Beside(old(db.committed), db.committed, rule.id)
      ensures Sys(Idle, raised) == Drive(old(Sys(Restore, None)))
      decreases |clock.tape|, Rank(Sys(Restore, None).engine, clock.last), 0
    {
      ghost var s := Sys(Restore, None);
      RestoreTurn(s);
      var pending := state.value;
      if pending.pendingDeadline.None? {
        return None;
      }
      var now := clock.UtcNow();
      var delay := if pending.pendingDeadline.value <= now then 0 else pending.pendingDeadline.value - now;
      if delay == 0 {
        raised := ConfirmLocked(pending.pendingGeneration);
        return;
      }
      ScheduleCallback(delay, pending.pendingGeneration);
      return None;
    }

    /** Hold a new timer; a handle held before is forgotten, not cancelled. */
    method ScheduleCallback(delay: Time, generation: nat)
      requires Timed() && delay > 0
      modifies this`scheduled, this`alarm, scheduler
      ensures Timed() && alarm == Schedule(old(alarm), generation, delay)
    {
      var handle := scheduler.Schedule(delay, generation);
      scheduled := Some(handle);
      alarm := Schedule(alarm, generation, delay);
    }

    // ----- samples -----

    method CancelScheduled()
      requires alarm.held == scheduled && alarm.timers == scheduler.timers
      modifies this`scheduled, this`alarm, scheduler`timers
      ensures scheduled.None? && alarm == Cancel(old(alarm)) && alarm.timers == scheduler.timers
    {
      if scheduled.Some? {
        scheduler.Cancel(scheduled.value);
        scheduled := None;
      }
      alarm := Cancel(alarm);
    }

    /** One evaluated sample; an unusable one is dropped. */
    method Observe(observation: Option<Observation>) returns (raised: Option<Detail>)
      requires Timed() && (accepting ==> Valid())
      modifies this, db, clock, scheduler, ids, evaluator, observer
      ensures Timed() && (old(Valid()) ==> Valid())
      ensures Beside(old(db.committed), db.committed, rule.id)
      ensures
        Sys(Idle, raised) ==
        match observation
        case None => old(Sys(Idle, None))
        case Some(o) => Observed(old(Sys(Idle, None)), o)
    {
      match observation
      case None => return None;
      case Some(o) =>
        if !accepting {
          DroppedSample(Sys(Idle, None), o);
          return None;
        }
        raised := AcceptLocked(o);
    }

    method AcceptLocked(o: Observation) returns (raised: Option<Detail>)
      requires Valid() && accepting
      modifies this, db, clock, scheduler, ids, evaluator, observer
      ensures Valid()
      ensures Beside(old(db.committed), db.committed, rule.id)
      ensures Sys(Idle, raised) == Observed(old(Sys(Idle, None)), o)
    {
      raised := None;
      ghost var s := Sys(Idle, None);
      if state.Some? && IsStale(state.value, o) {
        DroppedSample(s, o);
        return;
      }
      if state.None? {
        if o.presence == Unknown {
          DroppedSample(s, o);
          return;
        }
        BaselineSample(s, o);
        var now := clock.UtcNow();
        var baseline := BaselineState(rule, o, now, storeCoordinates);
        Keep(baseline);
        return;
      }
      if o.presence == Unknown {
        DroppedSample(s, o);
        return;
      }
      if o.presence == state.value.presence {
        AgreeingSample(s, o);
        AcceptAgreeing(o);
        return;
      }
      if state.value.pendingTransition == Some(o.presence) {
        RefreshingSample(s, o);
        raised := AcceptRefreshing(o);
        return;
      }
      BeginningSample(s, o);
      raised := BeginPendingLocked(o);
    }

    method AcceptAgreeing(o: Observation)
      requires Valid() && state.Some? && o.presence == state.value.presence
      modifies this, db, clock, scheduler
      ensures Valid()
      ensures Beside(old(db.committed), db.committed, rule.id)
      ensures
        var s := old(Sys(Idle, None));
        var stable := AcceptedStateUpdate(s.engine.state.value, o, Driving.Read(s).supply.last, storeCoordinates, true);
        Sys(Idle, None) == Adopting(s, stable, Idle, Cancel(s.alarm))
    {
      CancelScheduled();
      var now := clock.UtcNow();
      var stable := AcceptedStateUpdate(state.value, o, now, storeCoordinates, true);
      Keep(stable);
    }

    method AcceptRefreshing(o: Observation) returns (raised: Option<Detail>)
      requires Valid() && state.Some? && o.presence != Unknown
      modifies this, db, clock, scheduler, ids, evaluator, observer
      ensures Valid()
      ensures Beside(old(db.committed), db.committed, rule.id)
      ensures
        var s := old(Sys(Idle, None));
        var now := Driving.Read(s).supply.last;
        var latest := AcceptedStateUpdate(s.engine.state.value, o, now, storeCoordinates, false);
        Sys(Idle, raised) == Drive(Adopting(s, latest, if latest.pendingDeadline.Some? then Check else Idle, s.alarm))
    {
      raised := None;
      ghost var before := db.committed;
      var now := clock.UtcNow();
      var latest := AcceptedStateUpdate(state.value, o, now, storeCoordinates, false);
      Keep(latest);
      if latest.pendingDeadline.Some? {
        ghost var stored := db.committed;
        raised := CheckDeadline();
        BesideBoth(before, stored, db.committed, rule.id);
      }
    }

    /** Compare the clock with the deadline of the transition that was just refreshed. */
    method CheckDeadline() returns (raised: Option<Detail>)
      requires Valid() && state.Some? && state.value.pendingDeadline.Some?
      modifies this, db, clock, scheduler, ids, evaluator, observer
      ensures Valid()
      ensures Beside(old(db.committed), db.committed, rule.id)
      ensures Sys(Idle, raised) == Drive(old(Sys(Check, None)))
    {
      CheckTurn(Sys(Check, None));
      raised := None;
      var again := clock.UtcNow();
      if again >= state.value.pendingDeadline.value {
        raised := ConfirmLocked(state.value.pendingGeneration);
      }
    }

    method BeginPendingLocked(o: Observation) returns (raised: Option<Detail>)
      requires Valid() && state.Some?
      requires o.presence != Unknown && o.presence != state.value.presence
      modifies this, db, clock, scheduler, ids, evaluator, observer
      ensures Valid()
      ensures Beside(old(db.committed), db.committed, rule.id)
      ensures
        var s := old(Sys(Idle, None));
        var pending := PendingState(rule, s.engine.state.value, o, Driving.Read(s).supply.last, storeCoordinates);
        Sys(Idle, raised) == Drive(Adopting(s, pending, Restore, Cancel(s.alarm).(silent := None, refused := None)))
    {
      ghost var (before, s) := (db.committed, Sys(Idle, None));
      CancelScheduled();
      alarm := alarm.(silent := None, refused := None);
      var now := clock.UtcNow();
      var pending := PendingState(rule, state.value, o, now, storeCoordinates);
      Keep(pending);
      assert Sys(Restore, None) == Adopting(s, pending, Restore, Cancel(s.alarm).(silent := None, refused := None));
      ghost var stored := db.committed;
      raised := RestorePendingLocked();
      BesideBoth(before, stored, db.committed, rule.id);
    }

    // ----- callbacks and lifecycle -----

    /** A timer of this engine expires, held or not; its callback waits for the lock. */
    method TimerExpires(handle: nat)
      requires Timed() && handle in scheduler.timers
      modifies this`alarm, scheduler`timers
      ensures Timed() && (old(Valid()) ==> Valid())
      ensures
        var s := old(Sys(Idle, None));
        Sys(Idle, None) == s.(alarm := Expired(s.alarm, handle))
    {
      alarm := Expired(alarm, handle);
      scheduler.Expire(handle);
    }

    /** A timer of this engine has expired and its callback holds the lock. */
    method DeadlineCallback(generation: nat) returns (raised: Option<Detail>)
      requires Timed() && (accepting ==> Valid())
      modifies this, db, clock, scheduler, ids, evaluator, observer
      ensures Timed() && (old(Valid()) ==> Valid())
      ensures Beside(old(db.committed), db.committed, rule.id)
      ensures Sys(Idle, raised) == Operate(old(Sys(Idle, None)), Fire(generation))
    {
      alarm := alarm.(queued := alarm.queued - multiset{generation});
      if !accepting {
        return None;
      }
      raised := ConfirmLocked(generation);
    }

    /** Stop for good but keep the stored row. */
    method Suspend()
      requires Timed()
      modifies this, scheduler
      ensures Timed() && (old(Valid()) ==> Valid())
      ensures Sys(Idle, None) == Operate(old(Sys(Idle, None)), Input.Suspend)
    {
      accepting := false;
      CancelScheduled();
    }

    /** Stop for good and delete the stored row. */
    method Deactivate()
      requires !db.open && Timed() && Configured(db.committed, rule)
      modifies this, db, scheduler
      ensures !db.open && Timed() && Configured(db.committed, rule) && (old(Valid()) ==> Valid())
      ensures db.committed == RowDeleted(old(db.committed), rule.id)
      ensures Sys(Idle, None) == Operate(old(Sys(Idle, None)), Input.Deactivate)
    {
      accepting := false;
      CancelScheduled();
      state := None;
      Erase();
    }

    method Erase()
      requires !db.open && Grounded(db.committed, rule, None)
      modifies db
      ensures !db.open && Grounded(db.committed, rule, None)
      ensures db.committed == RowDeleted(old(db.committed), rule.id)
      ensures DiskOf(db.committed, rule.id) == DiskOf(old(db.committed), rule.id).(row := None)
    {
      RowDeletedConsistent(db.committed, rule.id);
      Operations.RowDeletedView(db.committed, rule.id, rule.id);
      db.DeleteRuntimeState(rule.id);
    }

    /** Bring a new engine up to the stored row, and resume a pending transition. */
    method Recover() returns (raised: Option<Detail>)
      requires Valid() && state.None?
      modifies this, db, clock, scheduler, ids, evaluator, observer
      ensures Valid()
      ensures Beside(old(db.committed), db.committed, rule.id)
      ensures Sys(Idle, raised) == Recovered(old(Sys(Idle, None)))
      ensures
        var (row, now) := (old(DiskOf(db.committed, rule.id).row), Reading(old(clock.tape), old(clock.last)));
        rule.enabled && row.Some? && row.value.pendingTransition.None? ==>
          && state == DiskOf(db.committed, rule.id).row
          && state == Some(row.value.(
               enterCooldownUntil := Lasting(row.value.enterCooldownUntil, now),
               exitCooldownUntil := Lasting(row.value.exitCooldownUntil, now),
               updatedAt := now))
    {
      if rule.enabled && DiskOf(db.committed, rule.id).row.Some? {
        RecoveredRow(Sys(Idle, None));
      }
      if !rule.enabled {
        accepting := false;
        Erase();
        return None;
      }
      accepting := true;
      var row := db.LoadRuntimeState(rule.id);
      if row.None? {
        return None;
      }
      Refresh(row.value);
      if state.value.pendingTransition.Some? {
        ghost var refreshed := db.committed;
        raised := RestorePendingLocked();
        BesideBoth(old(db.committed), refreshed, db.committed, rule.id);
      } else {
        raised := None;
      }
    }

    /** Clear the cooldowns that have ended; the row is written only if that changed something. */
    method Refresh(row: RuntimeState)
      requires Valid() && rule.id in db.committed.rows && db.committed.rows[rule.id] == row
      modifies this`state, db, clock
      ensures Valid() && state.Some?
      ensures Beside(old(db.committed), db.committed, rule.id)
      ensures
        var s := old(Sys(Idle, None));
        var recovered := RecoveredState(row, Driving.Read(s).supply.last);
        Sys(Idle, None) == Adopting(s, recovered, Idle, s.alarm)
    {
      var now := clock.UtcNow();
      var recovered := RecoveredState(row, now);
      RecoveredGrounded(db.committed, rule, row, now);
      if recovered != row {
        Keep(recovered);
      } else {
        state := Some(recovered);
      }
    }
  }

  /** A system whose engine has adopted a state. */
  function Kept(s: System, next: RuntimeState): System
  {
    s.(engine := s.engine.(state := Some(next)), disk := s.disk.(row := Some(next)))
  }

  /** What an append makes of the database. */
  lemma AppendedView(t: Tables, rule: Rule, c: ConfirmedTransition)
    requires Grounded(t, rule, None)
    requires c.eventId !in t.events && WellBuilt(c) && Shaped(c.runtimeState)
    requires c.ruleId == rule.id && c.trackerId == rule.tracker
    requires c.placeId == rule.place && c.journalId == rule.journal
    ensures
      var key := Key(c.generation, c.confirmedDeadline);
      && (Replayed(t, c) <==> key in DiskOf(t, rule.id).keys)
      && (!Replayed(t, c) ==>
            var u := ConfirmCommitted(t, c);
            && Committable(t, c) && Grounded(u, rule, Some(c.runtimeState)) && Beside(t, u, rule.id)
            && u.events.Keys == t.events.Keys + {c.eventId}
            && DiskOf(u, rule.id) == Disk(Some(c.runtimeState), DiskOf(t, rule.id).keys + {key}))
  {
    KeysMeaning(t, rule.id, Key(c.generation, c.confirmedDeadline));
    if !Replayed(t, c) {
      assert Committable(t, c);
      ConfirmConsistent(t, c);
      Operations.ConfirmView(t, c, rule.id);
    }
  }

  lemma RecoveredGrounded(t: Tables, rule: Rule, row: RuntimeState, now: Time)
    requires Grounded(t, rule, None) && rule.id in t.rows && t.rows[rule.id] == row
    ensures Grounded(t, rule, Some(RecoveredState(row, now)))
  {
    assert LastEventMatches(t, row);
  }

  lemma WonIsAdopted(u: System, c: ConfirmedTransition, generation: nat, d: Disk)
    requires
      var key := Key(c.generation, c.confirmedDeadline);
      key !in u.disk.keys && d == Disk(Some(c.runtimeState), u.disk.keys + {key})
    ensures
      Adopted(u, c, generation) ==
      u.(engine := u.engine.(state := Some(c.runtimeState), pc := Idle), disk := d,
         notes := u.notes + [c.eventId], alarm := u.alarm.(held := None))
  {
  }

  lemma LostIsAdopted(u: System, c: ConfirmedTransition, generation: nat)
    requires Key(c.generation, c.confirmedDeadline) in u.disk.keys
    ensures
      Adopted(u, c, generation) ==
      if u.disk.row.None? then
        u.(engine := u.engine.(pc := Idle), raised := Some("duplicate event has no committed runtime state"))
      else
        u.(engine := u.engine.(state := u.disk.row, pc := Idle),
           alarm := u.alarm.(held := None, refused := Some(generation)))
  {
  }

  /** Nothing has changed but this rule's row and new events. */
  predicate Beside(t: Tables, u: Tables, rule: Id)
  {
    && u.(events := t.events, rows := t.rows) == t
    && (forall id :: id in t.events ==> id in u.events && u.events[id] == t.events[id])
    && (forall id :: id in u.events && id !in t.events ==> u.events[id].ruleId == Some(rule))
    && u.rows - {rule} == t.rows - {rule}
  }

  lemma BesideBoth(t: Tables, u: Tables, v: Tables, rule: Id)
    requires Beside(t, u, rule) && Beside(u, v, rule)
    ensures Beside(t, v, rule)
  {
  }

  /** What an engine may rely on: its rule is configured, and its memory and its row, if any,
      are well shaped and describe a retained event. */
  predicate Grounded(t: Tables, rule: Rule, state: Option<RuntimeState>)
  {
    match state
    case None => Configured(t, rule)
    case Some(s) => Configured(t, rule) && s.ruleId == rule.id && Shaped(s) && LastEventMatches(t, s)
  }

  predicate Configured(t: Tables, rule: Rule)
  {
    && Consistent(t)
    && rule.id in t.rules && RuleLinked(t, rule)
    && (rule.id in t.rows ==> Shaped(t.rows[rule.id]))
  }
}
