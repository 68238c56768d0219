/** Storage errors: the engine changes its memory before it saves, so an error that rolls a write
    back leaves its memory ahead of the row. What survives such errors. */
module Faults {
  import opened Wrappers
  import opened Models
  import opened RuntimeStates
  import opened Machine
  import opened Worlds
  import opened Safety
  import opened Alarms

  /** The engine after a step whose write, if it makes one, is rolled back: most steps have already
      changed the memory, an append changes it only after its commit. The lock is free again. */
  function Failed(e: Engine, o: Outcome): Engine
  {
    match o.effect
    case Nothing => o.engine
    case Silent => o.engine
    case Announced(_) => o.engine
    case Committed(_, _) => e.(pc := Idle)
    case Duplicate(_) => e.(pc := Idle)
    case _ => o.engine.(pc := Idle)
  }

  /** A cancelled call stays cancelled; a handle that is dropped only after a write is still kept. */
  function FailedAlarm(e: Engine, d: Disk, input: Input, a: Alarm): Alarm
  {
    var effect := Machine.Step(e, d, input).effect;
    if effect.Cancelled? || effect.Duplicate? then a else Handle(e, d, input, a)
  }

  /** A world that may meet storage errors, with its timers and a record of what the errors left. */
  datatype Frail = Frail(
    world: World,
    alarm: Alarm,
    generations: seq<nat>,          // those of the events of this lifetime
    attempt: Option<RuntimeState>,  // the last failed save since memory and row last came together
    stranded: Option<nat>)          // the generation whose begin, or append, was the last to fail

  datatype Occurrence = Fine(step: Worlds.Step) | Failing(input: Input) | Expiring(handle: nat)

  function Unharmed(): Frail
  {
    Frail(Genesis(), NO_ALARM, [], None, None)
  }

  function Happen(f: Frail, x: Occurrence): Frail
  {
    match x
    case Fine(step) =>
      Frail(Next(f.world, step), Ring(f.world, step, f.alarm), Counted(f.generations, EffectOf(f.world, step)),
            if Heals(f.world, step) then None else f.attempt,
            if step.On? && Enabled(f.world, step.input) then
              StrandedBy(f.world.engine.value, f.world.disk, step.input, f.stranded)
            else f.stranded)
    case Failing(input) =>
      if Enabled(f.world, input) then
        var (e, d) := (f.world.engine.value, f.world.disk);
        var o := Machine.Step(e, d, input);
        Frail(f.world.(engine := Some(Failed(e, o))), FailedAlarm(e, d, input, f.alarm), f.generations,
              if Saves(o.effect) then o.engine.state else f.attempt,
              StrandedByError(e, d, input, f.stranded))
      else f
    case Expiring(handle) => f.(alarm := Expired(f.alarm, handle))
  }

  function GenerationOf(state: Option<RuntimeState>): Option<nat>
  {
    if state.None? then None else Some(state.value.pendingGeneration)
  }

  /** A refused append leaves the adopted row's transition without a call; so does one that finds no row. */
  function StrandedBy(e: Engine, d: Disk, input: Input, stranded: Option<nat>): Option<nat>
  {
    var o := Machine.Step(e, d, input);
    if o.effect.Duplicate? || o.effect.Broken? then GenerationOf(o.engine.state) else stranded
  }

  /** An error strikes before the deadline is scheduled, or while the due transition is appended. */
  function StrandedByError(e: Engine, d: Disk, input: Input, stranded: Option<nat>): Option<nat>
  {
    var o := Machine.Step(e, d, input);
    if o.effect.Began? then GenerationOf(o.engine.state)
    else if o.effect.Committed? || o.effect.Duplicate? || o.effect.Broken? then GenerationOf(e.state)
    else stranded
  }

  /** A write has gone through, or the memory is gone. */
  predicate Heals(w: World, step: Worlds.Step)
  {
    Writes(EffectOf(w, step)) || step.Crash? || (step.Start? && Drained(w))
  }

  function Counted(generations: seq<nat>, effect: Effect): seq<nat>
  {
    match effect
    case Committed(_, transition) => generations + [transition.generation]
    case Erased => []
    case _ => generations
  }

  function HappenAll(f: Frail, xs: seq<Occurrence>): Frail
    decreases |xs|
  {
    if xs == [] then f else HappenAll(Happen(f, xs[0]), xs[1..])
  }

  // ----- what survives -----

  /** The state is well shaped, and no event so far has its pending generation or a later one. */
  predicate Current(s: RuntimeState, generations: seq<nat>)
  {
    && Shaped(s)
    && forall k :: 0 <= k < |generations| ==>
         generations[k] <= s.pendingGeneration && (PendingComplete(s) ==> generations[k] < s.pendingGeneration)
  }

  predicate RowCurrent(d: Disk, generations: seq<nat>)
  {
    && (d.row.Some? ==> Current(d.row.value, generations))
    && (d.row.None? ==> generations == [])
  }

  /** The engine may remember more than the row says, but never less. */
  predicate AtLeast(e: Engine, d: Disk, generations: seq<nat>)
  {
    && (!e.accepting ==> e.pc.Idle?)
    && (e.accepting ==>
          && (d.row.Some? ==> e.state.Some?)
          && (e.state.Some? ==> Current(e.state.value, generations)))
    && (e.pc.Check? || e.pc.Restore? || e.pc.Confirm? ==> e.state.Some? && PendingComplete(e.state.value))
  }

  predicate Increasing(generations: seq<nat>)
  {
    forall i, j :: 0 <= i < j < |generations| ==> generations[i] < generations[j]
  }

  predicate Surviving(f: Frail)
  {
    && RowCurrent(f.world.disk, f.generations)
    && Increasing(f.generations)
    && (f.world.engine.Some? ==> AtLeast(f.world.engine.value, f.world.disk, f.generations))
  }

  /** What a step leaves, whether its write goes through or not. */
  predicate Bears(e: Engine, d: Disk, o: Outcome, generations: seq<nat>)
  {
    && RowCurrent(o.disk, Counted(generations, o.effect))
    && AtLeast(o.engine, o.disk, Counted(generations, o.effect))
    && Increasing(Counted(generations, o.effect))
    && AtLeast(Failed(e, o), d, generations)
  }

  /** An adopted state that was not there before, or follows the remembered one. */
  lemma AdoptBears(e: Engine, d: Disk, s: RuntimeState, pc: Pc, effect: Effect, generations: seq<nat>)
    requires RowCurrent(d, generations) && Increasing(generations) && e.accepting
    requires Counted(generations, effect) == generations && Saves(effect)
    requires Current(s, generations)
    requires pc.Idle? || ((pc.Check? || pc.Restore?) && PendingComplete(s))
    ensures Bears(e, d, Machine.Adopt(e, d, s, pc, effect), generations)
  {
  }

  predicate Saves(effect: Effect)
  {
    || effect.Baseline? || effect.Agreed? || effect.Refreshed? || effect.Began? || effect.Cancelled?
    || effect.Suppressed?
  }

  lemma AcceptBears(e: Engine, d: Disk, o: Observation, now: Time, generations: seq<nat>)
    requires RowCurrent(d, generations) && AtLeast(e, d, generations) && Increasing(generations)
    requires e.accepting && e.pc.Idle?
    ensures Bears(e, d, Accept(e, d, o, now), generations)
  {
    if e.state.None? {
      if o.presence != Unknown {
        AdoptBears(e, d, BaselineState(e.rule, o, now, e.storeCoordinates), Idle, Baseline(o.presence), generations);
      }
    } else {
      var s := e.state.value;
      if !IsStale(s, o) && o.presence != Unknown {
        AcceptFollows(e, d, s, o, now, generations);
      }
    }
  }

  lemma AcceptFollows(e: Engine, d: Disk, s: RuntimeState, o: Observation, now: Time, generations: seq<nat>)
    requires RowCurrent(d, generations) && Increasing(generations) && Current(s, generations)
    requires e.accepting && e.pc.Idle? && e.state == Some(s) && !IsStale(s, o) && o.presence != Unknown
    ensures Bears(e, d, Accept(e, d, o, now), generations)
  {
    if o.presence == s.presence {
      AdoptBears(e, d, AcceptedStateUpdate(s, o, now, e.storeCoordinates, true), Idle, Agreed(o.presence),
                 generations);
    } else if s.pendingTransition == Some(o.presence) {
      AdoptBears(e, d, AcceptedStateUpdate(s, o, now, e.storeCoordinates, false), Check, Refreshed(o.presence),
                 generations);
    } else {
      AdoptBears(e, d, PendingState(e.rule, s, o, now, e.storeCoordinates), Restore, Began(o.presence, e.rule),
                 generations);
    }
  }

  /** A step that moves only the program counter. */
  lemma PcBears(e: Engine, d: Disk, pc: Pc, effect: Effect, generations: seq<nat>)
    requires RowCurrent(d, generations) && AtLeast(e, d, generations) && Increasing(generations)
    requires effect.Nothing? || effect.Silent? || effect.Announced?
    requires pc.Idle? || (e.accepting && e.state.Some? && PendingComplete(e.state.value) && !pc.Notify?)
    ensures Bears(e, d, Outcome(e.(pc := pc), d, effect), generations)
  {
  }

  lemma DecideBears(e: Engine, d: Disk, now: Time, answer: Option<Presence>, newId: Id, generations: seq<nat>)
    requires RowCurrent(d, generations) && AtLeast(e, d, generations) && Increasing(generations)
    requires e.accepting && e.pc.Confirm?
    ensures Bears(e, d, Decide(e, d, e.state.value, now, answer, newId), generations)
  {
    var s := e.state.value;
    if answer.None? {
      PcBears(e, d, Idle, Silent, generations);
    } else if answer != s.pendingTransition {
      AdoptBears(e, d, WithoutPending(s).(updatedAt := now), Idle, Cancelled(answer.value), generations);
    } else {
      var flip := Flip(answer.value, now, e.rule.cooldownSeconds * SECOND);
      var cooldown := DirectionCooldown(s, answer.value);
      if cooldown.Some? && now < cooldown.value {
        var corrected := ConfirmedState(s, answer.value, now, None, e.rule);
        AdoptBears(e, d, corrected.value, Idle, Suppressed(flip), generations);
      } else {
        var built := BuildConfirmedTransition(e.rule, e.source, s, now, s.pendingGeneration, newId);
        CommitBears(e, d, flip, built.value, generations);
      }
    }
  }

  lemma CommitBears(e: Engine, d: Disk, flip: Flip, t: ConfirmedTransition, generations: seq<nat>)
    requires RowCurrent(d, generations) && AtLeast(e, d, generations) && Increasing(generations)
    requires e.accepting && e.pc.Confirm? && t.generation == e.state.value.pendingGeneration
    requires Shaped(t.runtimeState) && PendingAbsent(t.runtimeState)
    requires t.runtimeState.pendingGeneration == t.generation
    ensures Bears(e, d, Commit(e, d, flip, t), generations)
  {
    var o := Commit(e, d, flip, t);
    if o.effect.Committed? {
      assert Current(e.state.value, generations);
      assert Increasing(generations + [t.generation]);
      assert Current(t.runtimeState, generations + [t.generation]);
    } else {
      assert Counted(generations, o.effect) == generations;
    }
  }

  lemma ContinueBears(e: Engine, d: Disk, now: Time, answer: Option<Presence>, newId: Id, generations: seq<nat>)
    requires RowCurrent(d, generations) && AtLeast(e, d, generations) && Increasing(generations)
    ensures Bears(e, d, Continue(e, d, now, answer, newId), generations)
  {
    if e.pc.Check? || e.pc.Restore? || e.pc.Confirm? {
      var deadline := e.state.value.pendingDeadline.value;
      if e.pc.Confirm? && deadline <= now {
        DecideBears(e, d, now, answer, newId, generations);
      } else {
        var pc := if e.pc.Confirm? then Restore else if now < deadline then Idle else Confirm;
        PcBears(e, d, pc, Nothing, generations);
      }
    } else {
      assert Continue(e, d, now, answer, newId) == Outcome(e, d, Nothing);
    }
  }

  lemma StepBears(e: Engine, d: Disk, input: Input, generations: seq<nat>)
    requires RowCurrent(d, generations) && AtLeast(e, d, generations) && Increasing(generations)
    ensures Bears(e, d, Machine.Step(e, d, input), generations)
  {
    match input
    case Sample(o, now) =>
      if e.pc.Idle? && e.accepting {
        AcceptBears(e, d, o, now, generations);
      }
    case Tick(now, answer, newId) => ContinueBears(e, d, now, answer, newId, generations);
    case _ =>
  }

  lemma FineNext(f: Frail, step: Worlds.Step)
    requires Surviving(f) && !step.On?
    ensures Surviving(Happen(f, Fine(step)))
  {
    var g := Happen(f, Fine(step));
    assert g.world == Next(f.world, step) && g.generations == Counted(f.generations, EffectOf(f.world, step));
  }

  lemma SurvivingNext(f: Frail, x: Occurrence)
    requires Surviving(f)
    ensures Surviving(Happen(f, x))
  {
    var w := f.world;
    match x
    case Failing(input) =>
      if Enabled(w, input) {
        StepBears(w.engine.value, w.disk, input, f.generations);
      }
    case Fine(On(input)) =>
      if Enabled(w, input) {
        StepBears(w.engine.value, w.disk, input, f.generations);
        OnStep(w, w.engine.value, input);
      }
    case Fine(step) => FineNext(f, step);
    case Expiring(_) =>
  }

  lemma {:induction false} SurvivingRun(f: Frail, xs: seq<Occurrence>)
    requires Surviving(f)
    ensures Surviving(HappenAll(f, xs))
    decreases |xs|
  {
    if xs != [] {
      SurvivingNext(f, xs[0]);
      SurvivingRun(Happen(f, xs[0]), xs[1..]);
    }
  }

  /** Whatever writes are rolled back, whenever the process dies: within a lifetime each generation
      still yields at most one event and later events have higher generations, and both the row and
      the memory of an accepting engine are well shaped. */
  lemma ErrorsKeepExactlyOnce(xs: seq<Occurrence>)
    ensures
      var f := HappenAll(Unharmed(), xs);
      && Increasing(f.generations)
      && (f.world.disk.row.Some? ==> Shaped(f.world.disk.row.value))
      && (f.world.engine.Some? && f.world.engine.value.accepting && f.world.engine.value.state.Some? ==>
            Shaped(f.world.engine.value.state.value))
  {
    SurvivingRun(Unharmed(), xs);
  }

  /** The step has saved, or appended, or taken over the stored row. */
  predicate Writes(effect: Effect)
  {
    Saves(effect) || effect.Committed? || effect.Duplicate?
  }

  lemma WriteHeals(e: Engine, d: Disk, input: Input)
    ensures
      var o := Machine.Step(e, d, input);
      Writes(o.effect) ==> o.engine.state == o.disk.row
  {
    match input
    case Tick(now, answer, newId) => ContinueHeals(e, d, now, answer, newId);
    case _ =>
  }

  lemma ContinueHeals(e: Engine, d: Disk, now: Time, answer: Option<Presence>, newId: Id)
    ensures
      var o := Continue(e, d, now, answer, newId);
      Writes(o.effect) ==> o.engine.state == o.disk.row
  {
    if e.pc.Confirm? && e.state.Some? && PendingComplete(e.state.value)
      && e.state.value.pendingDeadline.value <= now
    {
      DecideHeals(e, d, e.state.value, now, answer, newId);
    }
  }

  lemma DecideHeals(e: Engine, d: Disk, s: RuntimeState, now: Time, answer: Option<Presence>, newId: Id)
    requires PendingComplete(s)
    ensures
      var o := Decide(e, d, s, now, answer, newId);
      Writes(o.effect) ==> o.engine.state == o.disk.row
  {
  }

  /** The next write that goes through brings row and memory together again, as does a restart. */
  lemma WritesHeal(w: World, step: Worlds.Step)
    ensures
      var (w', effect) := (Next(w, step), EffectOf(w, step));
      Writes(effect) || (step.Start? && Drained(w) && step.rule.enabled) ==>
        w'.engine.Some? && w'.engine.value.state == w'.disk.row
  {
    if step.On? && Enabled(w, step.input) {
      WriteHeals(w.engine.value, w.disk, step.input);
    }
  }

  // ----- when memory and row part -----

  /** A step whose write is rolled back parts memory and row exactly when it would have saved something
      that is not in the row already. */
  lemma FailureParts(e: Engine, d: Disk, input: Input)
    requires InStep(e, d) && e.accepting && !input.Deactivate?
    ensures
      var o := Machine.Step(e, d, input);
      Failed(e, o).state == d.row <==> !Saves(o.effect) || o.disk.row == d.row
  {
    WriteHeals(e, d, input);
    OthersKeepMemory(e, d, input);
  }

  /** Where nothing is written, memory and row stay; an append that fails has not touched the memory. */
  lemma OthersKeepMemory(e: Engine, d: Disk, input: Input)
    ensures
      var o := Machine.Step(e, d, input);
      && (!Writes(o.effect) && !o.effect.Erased? ==> o.engine.state == e.state && o.disk.row == d.row)
      && (!Saves(o.effect) && !o.effect.Erased? ==> Failed(e, o).state == e.state)
  {
    match input
    case Tick(now, answer, newId) => TickKeepsMemory(e, d, now, answer, newId);
    case _ =>
  }

  lemma TickKeepsMemory(e: Engine, d: Disk, now: Time, answer: Option<Presence>, newId: Id)
    ensures
      var o := Continue(e, d, now, answer, newId);
      && (!Writes(o.effect) ==> o.engine.state == e.state && o.disk.row == d.row)
      && (!Saves(o.effect) ==> Failed(e, o).state == e.state)
      && !o.effect.Erased? && o.engine.accepting == e.accepting
  {
    if e.state.Some? && PendingComplete(e.state.value) {
      DecisionKeepsMemory(e, d, e.state.value, now, answer, newId);
    }
  }

  lemma DecisionKeepsMemory(e: Engine, d: Disk, s: RuntimeState, now: Time, answer: Option<Presence>, newId: Id)
    requires PendingComplete(s)
    ensures
      var o := Decide(e, d, s, now, answer, newId);
      && (!Writes(o.effect) ==> o.engine.state == e.state && o.disk.row == d.row)
      && (!Saves(o.effect) ==> Failed(e, o).state == e.state)
      && !o.effect.Erased? && o.engine.accepting == e.accepting
  {
  }

  /** An accepting engine remembers the last state it failed to save, or the row if there is none. */
  predicate Remembers(f: Frail)
  {
    f.world.engine.Some? && f.world.engine.value.accepting ==>
      f.world.engine.value.state == if f.attempt.Some? then f.attempt else f.world.disk.row
  }

  lemma RemembersFailing(f: Frail, input: Input)
    requires Remembers(f)
    ensures Remembers(Happen(f, Failing(input)))
  {
    if Enabled(f.world, input) {
      OthersKeepMemory(f.world.engine.value, f.world.disk, input);
      ErasureEnds(f.world.engine.value, f.world.disk, input);
    }
  }

  /** Only a deactivation erases; no step makes an engine accept. */
  lemma ErasureEnds(e: Engine, d: Disk, input: Input)
    ensures
      var o := Machine.Step(e, d, input);
      && (o.effect.Erased? ==> !Failed(e, o).accepting && !o.engine.accepting)
      && (o.engine.accepting || Failed(e, o).accepting ==> e.accepting)
  {
    match input
    case Tick(now, answer, newId) => TickKeepsMemory(e, d, now, answer, newId);
    case _ =>
  }

  lemma RemembersFine(f: Frail, step: Worlds.Step)
    requires Remembers(f)
    ensures Remembers(Happen(f, Fine(step)))
  {
    if step.On? && Enabled(f.world, step.input) {
      OnStep(f.world, f.world.engine.value, step.input);
      WriteHeals(f.world.engine.value, f.world.disk, step.input);
      OthersKeepMemory(f.world.engine.value, f.world.disk, step.input);
      ErasureEnds(f.world.engine.value, f.world.disk, step.input);
    }
  }

  lemma {:induction false} RemembersRun(f: Frail, xs: seq<Occurrence>)
    requires Remembers(f)
    ensures Remembers(HappenAll(f, xs))
    decreases |xs|
  {
    if xs != [] {
      match xs[0] {
        case Fine(step) => RemembersFine(f, step);
        case Failing(input) => RemembersFailing(f, input);
        case Expiring(_) =>
      }
      RemembersRun(Happen(f, xs[0]), xs[1..]);
    }
  }

  /** After every run, the memory of an accepting engine equals its row exactly when no save has failed
      since a write last went through or the engine was started, or the last one to fail would have
      saved what is in the row anyway. */
  lemma MemoryExactly(xs: seq<Occurrence>)
    ensures
      var f := HappenAll(Unharmed(), xs);
      f.world.engine.Some? && f.world.engine.value.accepting ==>
        && (f.world.engine.value.state == f.world.disk.row <==> f.attempt.None? || f.attempt == f.world.disk.row)
        && (f.attempt.Some? ==> f.world.engine.value.state == f.attempt)
  {
    RemembersRun(Unharmed(), xs);
  }

  /** It does happen: the first sample of a rule is remembered, but no row is there. */
  lemma MemoryRunsAhead(rule: Rule, now: Time, o: Observation)
    requires rule.enabled && o.presence != Unknown
    ensures
      var f := Happen(Happen(Unharmed(), Fine(Start(rule, Gps, false, now))), Failing(Sample(o, now)));
      f.world.engine.value.accepting && f.world.engine.value.state.Some? && f.world.disk.row.None?
  {
  }
}
