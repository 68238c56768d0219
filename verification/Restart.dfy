/** A restart is as good as a deadline callback.

    While the clock does not run backward, a process that dies between any two
    writes and recovers reaches the same journal, now and for ever after, as one
    that lives on and takes one deadline callback for the pending generation at
    that instant. States agree but for `updatedAt` and cooldowns that have ended. */
module Restart {
  import opened Wrappers
  import opened Models
  import opened RuntimeStates
  import opened Machine
  import opened Worlds
  import opened Safety

  /** Both cooldowns are the same as far as this instant and later ones can tell. */
  predicate SameCooldown(a: Option<Time>, b: Option<Time>, clock: Time)
  {
    ActiveDeadline(a, clock) == ActiveDeadline(b, clock)
  }

  /** The states differ at most in `updatedAt` and in cooldowns that have ended. */
  predicate Same(s: RuntimeState, t: RuntimeState, clock: Time)
  {
    && t == s.(
              enterCooldownUntil := t.enterCooldownUntil,
              exitCooldownUntil := t.exitCooldownUntil,
              updatedAt := t.updatedAt)
    && SameCooldown(s.enterCooldownUntil, t.enterCooldownUntil, clock)
    && SameCooldown(s.exitCooldownUntil, t.exitCooldownUntil, clock)
  }

  predicate SameState(a: Option<RuntimeState>, b: Option<RuntimeState>, clock: Time)
  {
    match (a, b)
    case (None, None) => true
    case (Some(s), Some(t)) => Same(s, t, clock)
    case _ => false
  }

  predicate SameEngine(a: Engine, b: Engine, clock: Time)
  {
    && a.rule == b.rule && a.source == b.source && a.storeCoordinates == b.storeCoordinates
    && a.accepting == b.accepting && a.pc == b.pc
    && SameState(a.state, b.state, clock)
  }

  predicate SameDisk(a: Disk, b: Disk, clock: Time)
  {
    SameState(a.row, b.row, clock) && a.keys == b.keys
  }

  /** Everything recorded except the notifications, which a dead process cannot send. */
  predicate SamePast(a: History, b: History)
  {
    a.(notes := []) == b.(notes := [])
  }

  predicate Alike(a: World, b: World, clock: Time)
  {
    && (a.engine.Some? <==> b.engine.Some?)
    && (a.engine.Some? ==> SameEngine(a.engine.value, b.engine.value, clock))
    && SameDisk(a.disk, b.disk, clock)
    && SamePast(a.past, b.past)
  }

  /** Two effects are alike when they leave alike records. */
  predicate SameEffect(a: Effect, b: Effect)
  {
    if a.Committed? && b.Committed? then
      && a.flip == b.flip
      && a.transition.eventId == b.transition.eventId
      && EventOf(a.transition) == EventOf(b.transition)
    else a == b
  }

  predicate SameOutcome(a: Outcome, b: Outcome, clock: Time)
  {
    SameEngine(a.engine, b.engine, clock) && SameDisk(a.disk, b.disk, clock) && SameEffect(a.effect, b.effect)
  }

  // ----- alike worlds stay alike -----

  lemma SameLater(a: Engine, b: Engine, d: Disk, c: Disk, clock: Time, now: Time)
    requires SameEngine(a, b, clock) && SameDisk(d, c, clock) && clock <= now
    ensures SameEngine(a, b, now) && SameDisk(d, c, now)
  {
  }

  lemma SameUpdate(s: RuntimeState, t: RuntimeState, o: Observation, now: Time, coordinates: bool, clear: bool)
    requires Same(s, t, now)
    ensures Same(AcceptedStateUpdate(s, o, now, coordinates, clear),
        AcceptedStateUpdate(t, o, now, coordinates, clear), now)
  {
  }

  lemma SamePendingState(rule: Rule, s: RuntimeState, t: RuntimeState, o: Observation, now: Time, coordinates: bool)
    requires Same(s, t, now)
    ensures Same(PendingState(rule, s, o, now, coordinates), PendingState(rule, t, o, now, coordinates), now)
  {
  }

  lemma SameAdopt(
    a: Engine, b: Engine, d: Disk, c: Disk, s: RuntimeState, t: RuntimeState, pc: Pc, effect: Effect, now: Time)
    requires SameEngine(a, b, now) && SameDisk(d, c, now) && Same(s, t, now)
    ensures SameOutcome(Adopt(a, d, s, pc, effect), Adopt(b, c, t, pc, effect), now)
  {
  }

  lemma SameAccept(a: Engine, b: Engine, d: Disk, c: Disk, o: Observation, now: Time)
    requires SameEngine(a, b, now) && SameDisk(d, c, now)
    ensures SameOutcome(Accept(a, d, o, now), Accept(b, c, o, now), now)
  {
    if a.state.None? {
      var baseline := BaselineState(a.rule, o, now, a.storeCoordinates);
      SameAdopt(a, b, d, c, baseline, baseline, Idle, Baseline(o.presence), now);
    } else {
      SameAcceptKnown(a, b, d, c, o, now);
    }
  }

  lemma SameAcceptKnown(a: Engine, b: Engine, d: Disk, c: Disk, o: Observation, now: Time)
    requires SameEngine(a, b, now) && SameDisk(d, c, now) && a.state.Some?
    ensures SameOutcome(Accept(a, d, o, now), Accept(b, c, o, now), now)
  {
    var (s, t, rule, coordinates) := (a.state.value, b.state.value, a.rule, a.storeCoordinates);
    if IsStale(s, o) || o.presence == Unknown {
    } else if o.presence == s.presence {
      SameUpdate(s, t, o, now, coordinates, true);
      SameAdopt(a, b, d, c, AcceptedStateUpdate(s, o, now, coordinates, true),
                AcceptedStateUpdate(t, o, now, coordinates, true), Idle, Agreed(o.presence), now);
    } else if s.pendingTransition == Some(o.presence) {
      SameUpdate(s, t, o, now, coordinates, false);
      SameAdopt(a, b, d, c, AcceptedStateUpdate(s, o, now, coordinates, false),
                AcceptedStateUpdate(t, o, now, coordinates, false),
                if s.pendingDeadline.Some? then Check else Idle, Refreshed(o.presence), now);
    } else {
      SamePendingState(rule, s, t, o, now, coordinates);
      SameAdopt(a, b, d, c, PendingState(rule, s, o, now, coordinates), PendingState(rule, t, o, now, coordinates),
                Restore, Began(o.presence, rule), now);
    }
  }

  lemma SameConfirmed(s: RuntimeState, t: RuntimeState, target: Presence, now: Time, id: Option<Id>, rule: Rule)
    requires Same(s, t, now)
    ensures
      match (ConfirmedState(s, target, now, id, rule), ConfirmedState(t, target, now, id, rule))
      case (Success(s'), Success(t')) => Same(s', t', now)
      case (Failure(e), Failure(f)) => e == f
      case _ => false
  {
  }

  lemma SameBuilt(a: Engine, b: Engine, s: RuntimeState, t: RuntimeState, now: Time, id: Id)
    requires Same(s, t, now) && a.rule == b.rule && a.source == b.source
    ensures
      match (BuildConfirmedTransition(a.rule, a.source, s, now, s.pendingGeneration, id),
             BuildConfirmedTransition(b.rule, b.source, t, now, t.pendingGeneration, id))
      case (Success(x), Success(y)) => SameTransition(x, y, now)
      case (Failure(e), Failure(f)) => e == f
      case _ => false
  {
  }

  predicate SameTransition(x: ConfirmedTransition, y: ConfirmedTransition, now: Time)
  {
    x == y.(runtimeState := x.runtimeState) && Same(x.runtimeState, y.runtimeState, now)
  }

  lemma SameCommit(
    a: Engine, b: Engine, d: Disk, c: Disk, flip: Flip, x: ConfirmedTransition, y: ConfirmedTransition, now: Time)
    requires SameEngine(a, b, now) && SameDisk(d, c, now) && SameTransition(x, y, now)
    ensures SameOutcome(Commit(a, d, flip, x), Commit(b, c, flip, y), now)
  {
  }

  lemma SameDecide(a: Engine, b: Engine, d: Disk, c: Disk, now: Time, answer: Option<Presence>, newId: Id)
    requires SameEngine(a, b, now) && SameDisk(d, c, now)
    requires a.state.Some? && PendingComplete(a.state.value)
    ensures
      SameOutcome(Decide(a, d, a.state.value, now, answer, newId), Decide(b, c, b.state.value, now, answer, newId), now)
  {
    var (s, t) := (a.state.value, b.state.value);
    var target := s.pendingTransition.value;
    if answer.None? {
    } else if answer.value != target {
      SameAdopt(a, b, d, c, WithoutPending(s).(updatedAt := now), WithoutPending(t).(updatedAt := now),
                Idle, Cancelled(answer.value), now);
    } else {
      SameVerdict(a, b, d, c, now, target, newId);
    }
  }

  lemma SameVerdict(a: Engine, b: Engine, d: Disk, c: Disk, now: Time, target: Presence, newId: Id)
    requires SameEngine(a, b, now) && SameDisk(d, c, now)
    requires a.state.Some? && PendingComplete(a.state.value) && a.state.value.pendingTransition == Some(target)
    ensures
      SameOutcome(Decide(a, d, a.state.value, now, Some(target), newId),
                  Decide(b, c, b.state.value, now, Some(target), newId), now)
  {
    var (s, t) := (a.state.value, b.state.value);
    var flip := Flip(target, now, a.rule.cooldownSeconds * SECOND);
    var (x, y) := (DirectionCooldown(s, target), DirectionCooldown(t, target));
    assert SameCooldown(x, y, now);
    if x.Some? && now < x.value {
      SameConfirmed(s, t, target, now, None, a.rule);
      SameAdopt(a, b, d, c, ConfirmedState(s, target, now, None, a.rule).value,
                ConfirmedState(t, target, now, None, a.rule).value, Idle, Suppressed(flip), now);
    } else {
      SameBuilt(a, b, s, t, now, newId);
      var built := BuildConfirmedTransition(a.rule, a.source, s, now, s.pendingGeneration, newId);
      if built.Success? {
        SameCommit(a, b, d, c, flip, built.value,
                   BuildConfirmedTransition(b.rule, b.source, t, now, t.pendingGeneration, newId).value, now);
      }
    }
  }

  lemma SamePc(a: Engine, b: Engine, d: Disk, c: Disk, pc: Pc, now: Time)
    requires SameEngine(a, b, now) && SameDisk(d, c, now)
    ensures SameOutcome(Outcome(a.(pc := pc), d, Nothing), Outcome(b.(pc := pc), c, Nothing), now)
  {
  }

  /** At a confirmation. */
  lemma SameConfirm(a: Engine, b: Engine, d: Disk, c: Disk, now: Time, answer: Option<Presence>, newId: Id)
    requires SameEngine(a, b, now) && SameDisk(d, c, now) && a.pc.Confirm?
    ensures SameOutcome(Continue(a, d, now, answer, newId), Continue(b, c, now, answer, newId), now)
  {
    if a.state.None? || !PendingComplete(a.state.value) {
      SamePc(a, b, d, c, Idle, now);
    } else if now < a.state.value.pendingDeadline.value {
      SamePc(a, b, d, c, Restore, now);
    } else {
      SameDecide(a, b, d, c, now, answer, newId);
    }
  }

  /** Before a confirmation. */
  lemma SameRestore(a: Engine, b: Engine, d: Disk, c: Disk, now: Time, answer: Option<Presence>, newId: Id)
    requires SameEngine(a, b, now) && SameDisk(d, c, now) && (a.pc.Check? || a.pc.Restore?)
    ensures SameOutcome(Continue(a, d, now, answer, newId), Continue(b, c, now, answer, newId), now)
  {
    if a.state.None? || a.state.value.pendingDeadline.None? || now < a.state.value.pendingDeadline.value {
      SamePc(a, b, d, c, Idle, now);
    } else {
      SamePc(a, b, d, c, if IsCurrent(a, a.state.value.pendingGeneration) then Confirm else Idle, now);
    }
  }

  lemma SameContinue(
    a: Engine, b: Engine, d: Disk, c: Disk, clock: Time, now: Time, answer: Option<Presence>, newId: Id)
    requires SameEngine(a, b, clock) && SameDisk(d, c, clock) && clock <= now
    ensures SameOutcome(Continue(a, d, now, answer, newId), Continue(b, c, now, answer, newId), now)
  {
    SameLater(a, b, d, c, clock, now);
    match a.pc
    case Confirm => SameConfirm(a, b, d, c, now, answer, newId);
    case Check => SameRestore(a, b, d, c, now, answer, newId);
    case Restore => SameRestore(a, b, d, c, now, answer, newId);
    case _ =>
  }

  lemma SameStep(a: Engine, b: Engine, d: Disk, c: Disk, input: Input, clock: Time, now: Time)
    requires SameEngine(a, b, clock) && SameDisk(d, c, clock) && clock <= now
    requires now == Later(clock, On(input))
    ensures SameOutcome(Machine.Step(a, d, input), Machine.Step(b, c, input), now)
  {
    SameLater(a, b, d, c, clock, now);
    match input
    case Sample(o, t) => SameAccept(a, b, d, c, o, now);
    case Tick(t, answer, newId) => SameContinue(a, b, d, c, clock, now, answer, newId);
    case _ =>
  }

  lemma SameRecord(g: History, h: History, x: Effect, y: Effect)
    requires SamePast(g, h) && SameEffect(x, y)
    ensures SamePast(Record(g, x), Record(h, y))
  {
  }

  lemma AlikeAct(a: World, b: World, step: Step, clock: Time, now: Time)
    requires Alike(a, b, clock) && clock <= now && now == Later(clock, step)
    ensures
      var ((e, d, x), (f, c, y)) := (Act(a, step), Act(b, step));
      && (e.Some? <==> f.Some?)
      && (e.Some? ==> SameEngine(e.value, f.value, now))
      && SameDisk(d, c, now)
      && SameEffect(x, y)
  {
    if a.engine.Some? {
      SameLater(a.engine.value, b.engine.value, a.disk, b.disk, clock, now);
    }
    match step
    case On(input) =>
      if Enabled(a, input) {
        SameStep(a.engine.value, b.engine.value, a.disk, b.disk, input, clock, now);
      }
    case _ =>
  }

  lemma AlikeNext(a: World, b: World, step: Step, clock: Time)
    requires Alike(a, b, clock) && clock <= Later(clock, step)
    ensures Alike(Next(a, step), Next(b, step), Later(clock, step))
  {
    AlikeAct(a, b, step, clock, Later(clock, step));
    SameRecord(a.past, b.past, Act(a, step).2, Act(b, step).2);
  }

  lemma {:induction false} AlikeRun(a: World, b: World, steps: seq<Step>, clock: Time)
    requires Alike(a, b, clock) && Forward(clock, steps)
    ensures Alike(Run(a, steps), Run(b, steps), ClockAfter(clock, steps))
    decreases |steps|
  {
    if steps != [] {
      AlikeNext(a, b, steps[0], clock);
      AlikeRun(Next(a, steps[0]), Next(b, steps[0]), steps[1..], Later(clock, steps[0]));
    }
  }

  // ----- restart against callback -----

  /** Whatever the lock holder had left to do is abandoned. */
  function Interrupted(w: World): World
  {
    if w.engine.Some? then w.(engine := Some(w.engine.value.(pc := Idle))) else w
  }

  /** The process dies and a new engine recovers; recovery reads the clock up to three times. */
  function RestartSteps(e: Engine, t0: Time, t1: Time, t2: Time, answer: Option<Presence>, id: Id): seq<Step>
  {
    [Crash, Start(e.rule, e.source, e.storeCoordinates, t0), On(Tick(t1, answer, id)), On(Tick(t2, answer, id))]
  }

  /** One deadline callback for the pending generation, at the instant recovery acts. */
  function CallbackSteps(w: World, t1: Time, t2: Time, answer: Option<Presence>, id: Id): seq<Step>
  {
    var generation := if w.disk.row.Some? then w.disk.row.value.pendingGeneration else 0;
    var at := if Pending(w.disk) && t1 < w.disk.row.value.pendingDeadline.value then t1 else t2;
    [On(Fire(generation)), On(Tick(at, answer, id)), On(Tick(at, answer, id))]
  }

  lemma RunRestart(w: World, e: Engine, t0: Time, t1: Time, t2: Time, answer: Option<Presence>, id: Id)
    ensures
      var s := RestartSteps(e, t0, t1, t2, answer, id);
      Run(w, s) == Next(Next(Next(Next(w, s[0]), s[1]), s[2]), s[3])
  {
    var s := RestartSteps(e, t0, t1, t2, answer, id);
    assert s == [s[0]] + ([s[1]] + ([s[2]] + ([s[3]] + [])));
    RunCons(w, s[0], [s[1]] + ([s[2]] + ([s[3]] + [])));
    RunCons(Next(w, s[0]), s[1], [s[2]] + ([s[3]] + []));
    RunCons(Next(Next(w, s[0]), s[1]), s[2], [s[3]] + []);
    RunCons(Next(Next(Next(w, s[0]), s[1]), s[2]), s[3], []);
  }

  lemma RunCallback(w: World, v: World, t1: Time, t2: Time, answer: Option<Presence>, id: Id)
    ensures
      var s := CallbackSteps(w, t1, t2, answer, id);
      Run(v, s) == Next(Next(Next(v, s[0]), s[1]), s[2])
  {
    var s := CallbackSteps(w, t1, t2, answer, id);
    assert s == [s[0]] + ([s[1]] + ([s[2]] + []));
    RunCons(v, s[0], [s[1]] + ([s[2]] + []));
    RunCons(Next(v, s[0]), s[1], [s[2]] + []);
    RunCons(Next(Next(v, s[0]), s[1]), s[2], []);
  }

  /** A living, accepting engine, and an identifier that was never drawn. */
  predicate Alive(w: World, id: Id)
  {
    w.engine.Some? && w.engine.value.accepting && w.past.nextId <= id
  }

  predicate Serving(w: World, id: Id)
  {
    Coherent(w) && Alive(w, id)
  }

  function Recovered(w: World, t0: Time): World
    requires w.engine.Some?
  {
    var e := w.engine.value;
    Next(Next(w, Crash), Start(e.rule, e.source, e.storeCoordinates, t0))
  }

  /** Right after recovery the engine is at Restore for a pending row and idle otherwise, and its
      state is the row's but for the columns that recovery refreshes. */
  lemma RecoveredShape(w: World, id: Id, t0: Time)
    requires Serving(w, id)
    ensures
      var (r, e) := (Recovered(w, t0), w.engine.value);
      && r.engine.Some?
      && r.engine.value == Engine(e.rule, e.source, e.storeCoordinates, true, r.disk.row,
                                  if Pending(w.disk) then Restore else Idle)
      && r.disk.keys == w.disk.keys && r.past == w.past
      && SameState(r.disk.row, w.disk.row, t0)
  {
  }

  lemma AlikeShift(a: World, b: World, clock: Time, now: Time)
    requires Alike(a, b, clock) && clock <= now
    ensures Alike(a, b, now)
  {
  }

  /** A confirmation at its deadline ends the step: a further reading changes nothing. */
  lemma DueSettles(w: World, t: Time, answer: Option<Presence>, id: Id)
    requires Serving(w, id) && w.engine.value.pc.Confirm? && w.disk.row.value.pendingDeadline.value <= t
    ensures
      var v := Next(w, On(Tick(t, answer, id)));
      Next(v, On(Tick(t, answer, id))) == v
  {
    var v := Next(w, On(Tick(t, answer, id)));
    assert v.engine.value.pc.Idle? || v.engine.value.pc.Notify?;
  }

  /** An engine at Restore whose deadline is ahead, and one that is idle, only go idle. */
  lemma ReadingWaits(w: World, t1: Time, t2: Time, answer: Option<Presence>, id: Id)
    requires w.engine.Some? && t1 <= t2 && w.past.nextId <= id
    requires w.engine.value.pc.Idle? || w.engine.value.pc.Restore?
    requires
      w.engine.value.pc.Restore? ==>
        && w.engine.value.state.Some? && w.engine.value.state.value.pendingDeadline.Some?
        && t1 < w.engine.value.state.value.pendingDeadline.value
    ensures
      Next(Next(w, On(Tick(t1, answer, id))), On(Tick(t2, answer, id))) ==
      w.(engine := Some(w.engine.value.(pc := Idle)))
  {
    var idle := w.(engine := Some(w.engine.value.(pc := Idle)));
    assert Next(w, On(Tick(t1, answer, id))) == idle;
  }

  /** A callback whose deadline is ahead only goes idle. */
  lemma CallbackWaits(w: World, generation: nat, t: Time, answer: Option<Presence>, id: Id)
    requires Serving(w, id) && w.engine.value.pc.Idle?
    requires Pending(w.disk) ==> t < w.disk.row.value.pendingDeadline.value
    ensures
      var v := Next(w, On(Fire(generation)));
      Next(Next(v, On(Tick(t, answer, id))), On(Tick(t, answer, id))) == w
  {
    var v := Next(w, On(Fire(generation)));
    var e := w.engine.value;
    if IsCurrent(e, generation) {
      var waiting := w.(engine := Some(e.(pc := Restore)));
      assert v == w.(engine := Some(e.(pc := Confirm)));
      assert Next(v, On(Tick(t, answer, id))) == waiting;
      assert Next(waiting, On(Tick(t, answer, id))) == w;
    } else {
      assert v == w;
      assert Next(w, On(Tick(t, answer, id))) == w;
    }
  }

  /** Not due yet: both sides end up waiting for the stored deadline. */
  lemma WaitingAlike(w: World, t0: Time, t1: Time, t2: Time, answer: Option<Presence>, id: Id)
    requires Serving(w, id) && t0 <= t1 <= t2
    requires Pending(w.disk) ==> t1 < w.disk.row.value.pendingDeadline.value
    ensures
      Alike(Run(w, RestartSteps(w.engine.value, t0, t1, t2, answer, id)),
            Run(Interrupted(w), CallbackSteps(w, t1, t2, answer, id)), t2)
  {
    RunRestart(w, w.engine.value, t0, t1, t2, answer, id);
    RunCallback(w, Interrupted(w), t1, t2, answer, id);
    RecoveredShape(w, id, t0);
    var (r, v) := (Recovered(w, t0), Interrupted(w));
    ReadingWaits(r, t1, t2, answer, id);
    CallbackWaits(v, if w.disk.row.Some? then w.disk.row.value.pendingGeneration else 0,
                  if Pending(w.disk) then t1 else t2, answer, id);
    IdleAlike(w, t0, t2, id);
  }

  lemma IdleAlike(w: World, t0: Time, t2: Time, id: Id)
    requires Serving(w, id) && t0 <= t2
    ensures
      var r := Recovered(w, t0);
      r.engine.Some? && Alike(r.(engine := Some(r.engine.value.(pc := Idle))), Interrupted(w), t2)
  {
    RecoveredShape(w, id, t0);
    var r := Recovered(w, t0);
    AlikeShift(r.(engine := Some(r.engine.value.(pc := Idle))), Interrupted(w), t0, t2);
  }

  lemma ConfirmAlike(w: World, t0: Time, t1: Time, id: Id)
    requires Serving(w, id) && t0 <= t1
    ensures
      var r := Recovered(w, t0);
      r.engine.Some?
      && Alike(r.(engine := Some(r.engine.value.(pc := Confirm))),
               w.(engine := Some(w.engine.value.(pc := Confirm))), t1)
  {
    RecoveredShape(w, id, t0);
    var r := Recovered(w, t0);
    AlikeShift(r.(engine := Some(r.engine.value.(pc := Confirm))), w.(engine := Some(w.engine.value.(pc := Confirm))),
        t0, t1);
  }

  /** A due recovery goes on to confirm. */
  lemma RestoreConfirms(w: World, t0: Time, t1: Time, answer: Option<Presence>, id: Id)
    requires Serving(w, id) && Pending(w.disk) && w.disk.row.value.pendingDeadline.value <= t1
    ensures
      var r := Recovered(w, t0);
      && r.engine.Some?
      && Next(r, On(Tick(t1, answer, id))) == r.(engine := Some(r.engine.value.(pc := Confirm)))
  {
    RecoveredShape(w, id, t0);
  }

  /** Due: both sides decide at the same reading. */
  lemma Deciding(w: World, t0: Time, t1: Time, t2: Time, answer: Option<Presence>, id: Id)
    requires Serving(w, id) && t0 <= t1 <= t2
    requires Pending(w.disk) && w.disk.row.value.pendingDeadline.value <= t1
    ensures
      Alike(Run(w, RestartSteps(w.engine.value, t0, t1, t2, answer, id)),
            Run(Interrupted(w), CallbackSteps(w, t1, t2, answer, id)), t2)
  {
    var e := w.engine.value;
    RunRestart(w, e, t0, t1, t2, answer, id);
    RunCallback(w, Interrupted(w), t1, t2, answer, id);
    RestoreConfirms(w, t0, t1, answer, id);
    ConfirmAlike(w, t0, t1, id);
    var r := Recovered(w, t0);
    var r' := r.(engine := Some(r.engine.value.(pc := Confirm)));
    var v := w.(engine := Some(e.(pc := Confirm)));
    FiredConfirms(w, id);
    AlikeNext(r', v, On(Tick(t2, answer, id)), t1);
    DueSettles(v, t2, answer, id);
  }

  lemma FiredConfirms(w: World, id: Id)
    requires Serving(w, id) && Pending(w.disk)
    ensures
      Next(Interrupted(w), On(Fire(w.disk.row.value.pendingGeneration))) ==
      w.(engine := Some(w.engine.value.(pc := Confirm)))
  {
  }

  /** A crash and recovery at any point of any run gives the world that one deadline callback for
      the pending generation gives at that instant; a pending deadline is never moved. */
  lemma RestartIsTransparent(
    steps: seq<Step>, t0: Time, t1: Time, t2: Time, answer: Option<Presence>, id: Id)
    requires Alive(Run(Genesis(), steps), id) && t0 <= t1 <= t2
    ensures
      var w := Run(Genesis(), steps);
      Alike(Run(w, RestartSteps(w.engine.value, t0, t1, t2, answer, id)),
            Run(Interrupted(w), CallbackSteps(w, t1, t2, answer, id)), t2)
  {
    var w := Run(Genesis(), steps);
    Reachable(steps);
    if Pending(w.disk) && w.disk.row.value.pendingDeadline.value <= t1 {
      Deciding(w, t0, t1, t2, answer, id);
    } else {
      WaitingAlike(w, t0, t1, t2, answer, id);
    }
  }

  /** And whatever happens afterward, both go on to the same journal, the same flips and the same
      decisions, for as long as the clock does not run backward. */
  lemma RestartStaysTransparent(
    steps: seq<Step>, t0: Time, t1: Time, t2: Time, answer: Option<Presence>, id: Id, more: seq<Step>)
    requires Alive(Run(Genesis(), steps), id) && t0 <= t1 <= t2 && Forward(t2, more)
    ensures
      var w := Run(Genesis(), steps);
      var a := Run(w, RestartSteps(w.engine.value, t0, t1, t2, answer, id) + more);
      var b := Run(Interrupted(w), CallbackSteps(w, t1, t2, answer, id) + more);
      Alike(a, b, ClockAfter(t2, more)) && a.past.journal == b.past.journal && a.past.flips == b.past.flips
  {
    var w := Run(Genesis(), steps);
    var restart := RestartSteps(w.engine.value, t0, t1, t2, answer, id);
    var callback := CallbackSteps(w, t1, t2, answer, id);
    RestartIsTransparent(steps, t0, t1, t2, answer, id);
    RunConcat(w, restart, more);
    RunConcat(Interrupted(w), callback, more);
    AlikeRun(Run(w, restart), Run(Interrupted(w), callback), more, t2);
    var (g, h) := (Run(w, restart + more).past, Run(Interrupted(w), callback + more).past);
    assert g.journal == g.(notes := []).journal && h.journal == h.(notes := []).journal;
    assert g.flips == g.(notes := []).flips && h.flips == h.(notes := []).flips;
  }
}
