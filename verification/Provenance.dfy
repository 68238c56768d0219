/** Where the measurements of a row and of an event come from, and what privacy keeps out of them. */
module Provenance {
  import opened Wrappers
  import opened Models
  import opened RuntimeStates
  import opened Machine
  import opened Worlds
  import opened Safety

  /** The last accepted sample of this lifetime, and whether its coordinates might be kept. */
  datatype Trace = Nowhere | Seen(observation: Observation, keeps: bool)

  function Follow(w: World, step: Worlds.Step, trace: Trace): Trace
  {
    match EffectOf(w, step)
    case Erased => Nowhere
    case Baseline(_) => Latest(w, step, trace)
    case Agreed(_) => Latest(w, step, trace)
    case Refreshed(_) => Latest(w, step, trace)
    case Began(_, _) => Latest(w, step, trace)
    case _ => trace
  }

  function Latest(w: World, step: Worlds.Step, trace: Trace): Trace
  {
    match step
    case On(Sample(o, _)) => if w.engine.Some? then Seen(o, w.engine.value.storeCoordinates) else trace
    case _ => trace
  }

  function TraceOf(w: World, steps: seq<Worlds.Step>, trace: Trace): Trace
    decreases |steps|
  {
    if steps == [] then trace else TraceOf(Next(w, steps[0]), steps[1..], Follow(w, steps[0], trace))
  }

  /** What a sample leaves in a row. */
  predicate Carries(row: Option<RuntimeState>, trace: Trace)
  {
    row.Some? ==>
      && trace.Seen?
      && row.value.latestObservationAt == Some(trace.observation.observedAt)
      && row.value.lastProcessedAt == Some(trace.observation.observedAt)
      && row.value.latestAccuracy == trace.observation.accuracy
      && row.value.latestCoordinates == (if trace.keeps then Some(trace.observation.coordinates) else None)
  }

  lemma CarriesNext(w: World, step: Worlds.Step, trace: Trace)
    requires Coherent(w) && Carries(w.disk.row, trace)
    ensures Carries(Next(w, step).disk.row, Follow(w, step, trace))
  {
    match step
    case On(input) =>
      if Enabled(w, input) {
        CarriesStep(w.engine.value, w.disk, input, w, trace);
      }
    case _ =>
  }

  lemma CarriesStep(e: Engine, d: Disk, input: Input, w: World, trace: Trace)
    requires w.engine == Some(e) && w.disk == d && InStep(e, d) && Enabled(w, input) && Carries(d.row, trace)
    ensures Carries(Machine.Step(e, d, input).disk.row, Follow(w, On(input), trace))
  {
    match input
    case Tick(now, answer, newId) =>
      if e.pc.Confirm? && d.row.value.pendingDeadline.value <= now {
        CarriesDecide(e, d, now, answer, newId, trace);
        DecideGood(e, d, now, answer, newId);
      }
    case _ =>
  }

  /** A decision leaves the measurements alone. */
  lemma CarriesDecide(e: Engine, d: Disk, now: Time, answer: Option<Presence>, newId: Id, trace: Trace)
    requires InStep(e, d) && e.pc.Confirm? && Carries(d.row, trace)
    requires d.row.value.pendingDeadline.value <= now
    ensures Carries(Decide(e, d, d.row.value, now, answer, newId).disk.row, trace)
  {
  }

  lemma {:induction false} CarriesRun(w: World, steps: seq<Worlds.Step>, trace: Trace)
    requires Coherent(w) && Carries(w.disk.row, trace)
    ensures Coherent(Run(w, steps)) && Carries(Run(w, steps).disk.row, TraceOf(w, steps, trace))
    decreases |steps|
  {
    if steps != [] {
      CarriesNext(w, steps[0], trace);
      CoherentNext(w, steps[0]);
      CarriesRun(Next(w, steps[0]), steps[1..], Follow(w, steps[0], trace));
    }
  }

  /** The event is the rule's, and carries the measurements of the sample. */
  predicate Attributed(e: LocationEvent, engine: Engine, trace: Trace)
  {
    && e.ruleId == Some(engine.rule.id)
    && e.trackerId == engine.rule.tracker && e.placeId == engine.rule.place && e.journalId == engine.rule.journal
    && e.source == engine.source && e.status == Confirmed && e.originalEventId.None?
    && trace.Seen?
    && e.accuracy == trace.observation.accuracy
    && e.coordinates == (if trace.keeps then Some(trace.observation.coordinates) else None)
  }

  lemma CommitAttributed(e: Engine, d: Disk, input: Input, trace: Trace)
    requires InStep(e, d) && Carries(d.row, trace)
    ensures
      var effect := Machine.Step(e, d, input).effect;
      effect.Committed? ==> Attributed(EventOf(effect.transition), e, trace)
  {
  }

  /** Every event carries the measurements of the last sample that was accepted before it, and
      coordinates only if the engine that accepted this sample was allowed to keep them. */
  lemma EventsCarryTheLastSample(steps: seq<Worlds.Step>, step: Worlds.Step)
    ensures
      var (w, trace) := (Run(Genesis(), steps), TraceOf(Genesis(), steps, Nowhere));
      EffectOf(w, step).Committed? ==>
        w.engine.Some? && Attributed(EventOf(EffectOf(w, step).transition), w.engine.value, trace)
  {
    CarriesRun(Genesis(), steps, Nowhere);
    var w := Run(Genesis(), steps);
    if step.On? && Enabled(w, step.input) {
      CommitAttributed(w.engine.value, w.disk, step.input, TraceOf(Genesis(), steps, Nowhere));
    }
  }

  /** A transition waits for its own direction's seconds. */
  lemma DirectionSeconds(w: World, step: Worlds.Step)
    requires Coherent(w)
    ensures
      var (effect, w') := (EffectOf(w, step), Next(w, step));
      effect.Began? ==>
        && w.engine.Some?
        && effect.rule == w.engine.value.rule
        && w'.disk.row.Some? && Pending(w'.disk)
        && Spans(effect.rule, effect.target, w'.disk.row.value.pendingStartedAt.value,
                 w'.disk.row.value.pendingDeadline.value)
        && effect.target != Unknown
  {
  }

  /** A confirmed change opens a cooldown of the rule's length in its own direction, and only there. */
  lemma CooldownOpened(w: World, step: Worlds.Step)
    requires Coherent(w)
    ensures
      var (effect, u) := (EffectOf(w, step), Next(w, step));
      effect.Committed? ==>
        && w.engine.Some? && w.disk.row.Some? && u.disk.row.Some?
        && effect.flip.window == w.engine.value.rule.cooldownSeconds * SECOND
        && var (s, t) := (w.disk.row.value, u.disk.row.value);
           var ends := Some(effect.flip.at + effect.flip.window);
           if effect.flip.target == Inside then
             t.enterCooldownUntil == ends && t.exitCooldownUntil == s.exitCooldownUntil
           else
             t.exitCooldownUntil == ends && t.enterCooldownUntil == s.enterCooldownUntil
  {
  }

}
