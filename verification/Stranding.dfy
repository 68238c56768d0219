/** Pending transitions under storage errors: which of them may be left without a call, and when the
    next sample sees to them. */
module Stranding {
  import opened Wrappers
  import opened Models
  import opened RuntimeStates
  import opened Machine
  import opened Worlds
  import opened Safety
  import opened Alarms
  import opened Faults

  // ----- what is kept -----

  /** A transition that an accepting engine has in mind has a call to come, or its last due re-check gave
      no answer, or its begin or its append was the last to fail. */
  predicate Minded(e: Engine, a: Alarm, stranded: Option<nat>)
  {
    && (e.pc.Notify? ==> e.state.Some? && PendingAbsent(e.state.value))
    && (Expects(e) ==> Covered(a, e.state.value.pendingGeneration) || stranded == GenerationOf(e.state))
  }

  /** The engine accepts and has a transition in mind that it is not about to handle. */
  predicate Expects(e: Engine)
  {
    e.accepting && (e.pc.Idle? || e.pc.Check?) && e.state.Some? && PendingComplete(e.state.value)
  }

  /** An engine in the middle of a step has a transition in mind, and what it remembers is well shaped. */
  predicate Handling(e: Engine)
  {
    && (e.pc.Check? || e.pc.Restore? || e.pc.Confirm? ==>
          e.accepting && e.state.Some? && PendingComplete(e.state.value))
    && (e.accepting && e.state.Some? ==> Shaped(e.state.value))
  }

  lemma SampleMinded(e: Engine, d: Disk, o: Observation, now: Time, a: Alarm, stranded: Option<nat>)
    requires Minded(e, a, stranded) && e.accepting && e.pc.Idle?
    requires e.state.Some? ==> Shaped(e.state.value)
    ensures
      var input := Sample(o, now);
      var u := Accept(e, d, o, now);
      && Minded(u.engine, Handle(e, d, input, a), StrandedBy(e, d, input, stranded))
      && Minded(Failed(e, u), FailedAlarm(e, d, input, a), StrandedByError(e, d, input, stranded))
  {
  }

  /** A decision settles the transition, or keeps it in mind for a reason that is recorded. */
  lemma DecisionMinded(
    e: Engine, d: Disk, now: Time, answer: Option<Presence>, newId: Id, a: Alarm, stranded: Option<nat>)
    requires e.accepting && e.pc.Confirm? && e.state.Some? && Shaped(e.state.value)
    requires PendingComplete(e.state.value) && e.state.value.pendingDeadline.value <= now
    ensures
      var input := Tick(now, answer, newId);
      var u := Decide(e, d, e.state.value, now, answer, newId);
      && Minded(u.engine, Handle(e, d, input, a), StrandedBy(e, d, input, stranded))
      && Minded(Failed(e, u), FailedAlarm(e, d, input, a), StrandedByError(e, d, input, stranded))
  {
    var (input, u) := (Tick(now, answer, newId), Decide(e, d, e.state.value, now, answer, newId));
    assert Machine.Step(e, d, input) == u;
    DecisionSettles(e, d, now, answer, newId);
    if u.effect.Silent? {
      assert Handle(e, d, input, a).silent == GenerationOf(e.state);
    } else if u.effect.Committed? || u.effect.Duplicate? || u.effect.Broken? {
      assert StrandedByError(e, d, input, stranded) == GenerationOf(e.state);
      assert !u.effect.Committed? ==> StrandedBy(e, d, input, stranded) == GenerationOf(u.engine.state);
    }
  }

  /** What memory and program counter are after a decision. */
  lemma DecisionSettles(e: Engine, d: Disk, now: Time, answer: Option<Presence>, newId: Id)
    requires e.accepting && e.pc.Confirm? && e.state.Some? && Shaped(e.state.value)
    requires PendingComplete(e.state.value)
    ensures
      var u := Decide(e, d, e.state.value, now, answer, newId);
      match u.effect
      case Silent => u.engine == e.(pc := Idle)
      case Cancelled(_) => u.engine.pc.Idle? && u.engine.state.Some? && PendingAbsent(u.engine.state.value)
      case Suppressed(_) => u.engine.pc.Idle? && u.engine.state.Some? && PendingAbsent(u.engine.state.value)
      case Committed(_, _) => u.engine.pc.Notify? && u.engine.state.Some? && PendingAbsent(u.engine.state.value)
      case Duplicate(_) => u.engine.pc.Idle? && u.engine.state.Some?
      case Broken(_) => u.engine == e.(pc := Idle)
      case _ => false
  {
  }

  lemma TickMinded(
    e: Engine, d: Disk, now: Time, answer: Option<Presence>, newId: Id, a: Alarm, stranded: Option<nat>)
    requires Minded(e, a, stranded)
    requires Handling(e)
    ensures
      var input := Tick(now, answer, newId);
      var u := Machine.Step(e, d, input);
      && Minded(u.engine, Handle(e, d, input, a), StrandedBy(e, d, input, stranded))
      && Minded(Failed(e, u), FailedAlarm(e, d, input, a), StrandedByError(e, d, input, stranded))
  {
    if e.pc.Confirm? && e.state.value.pendingDeadline.value <= now {
      DecisionMinded(e, d, now, answer, newId, a, stranded);
    } else if e.pc.Restore? && Waits(e, now) {
      var generation := e.state.value.pendingGeneration;
      assert Schedule(a, generation, Remaining(e, now)).timers[a.next] == generation;
    }
  }

  lemma InputMinded(e: Engine, d: Disk, input: Input, a: Alarm, stranded: Option<nat>)
    requires Minded(e, a, stranded)
    requires Handling(e)
    ensures
      var u := Machine.Step(e, d, input);
      && Minded(u.engine, Handle(e, d, input, a), StrandedBy(e, d, input, stranded))
      && Minded(Failed(e, u), FailedAlarm(e, d, input, a), StrandedByError(e, d, input, stranded))
  {
    match input
    case Sample(o, now) =>
      if e.accepting && e.pc.Idle? {
        SampleMinded(e, d, o, now, a, stranded);
      }
    case Tick(now, answer, newId) => TickMinded(e, d, now, answer, newId, a, stranded);
    case _ => OtherMinded(e, d, input, a, stranded);
  }

  lemma OtherMinded(e: Engine, d: Disk, input: Input, a: Alarm, stranded: Option<nat>)
    requires Minded(e, a, stranded) && Handling(e) && !input.Sample? && !input.Tick?
    ensures
      var u := Machine.Step(e, d, input);
      && Minded(u.engine, Handle(e, d, input, a), StrandedBy(e, d, input, stranded))
      && Minded(Failed(e, u), FailedAlarm(e, d, input, a), StrandedByError(e, d, input, stranded))
  {
    var u := Machine.Step(e, d, input);
    OtherEffects(e, d, input);
    FailedOther(e, u);
    OtherStep(e, d, input, a, stranded);
  }

  lemma OtherEffects(e: Engine, d: Disk, input: Input)
    requires !input.Sample? && !input.Tick?
    ensures
      var effect := Machine.Step(e, d, input).effect;
      effect.Nothing? || effect.Announced? || effect.Erased?
  {
  }

  lemma FailedOther(e: Engine, u: Outcome)
    requires u.effect.Nothing? || u.effect.Announced? || (u.effect.Erased? && u.engine.pc.Idle?)
    ensures Failed(e, u) == u.engine
  {
  }

  lemma OtherStep(e: Engine, d: Disk, input: Input, a: Alarm, stranded: Option<nat>)
    requires Minded(e, a, stranded) && Handling(e) && !input.Sample? && !input.Tick?
    ensures
      var u := Machine.Step(e, d, input);
      Minded(u.engine, Handle(e, d, input, a), stranded) && (u.effect.Erased? ==> u.engine.pc.Idle?)
  {
    match input
    case Fire(generation) => AwaitedAfterFire(a, generation);
    case Announce =>
      assert Machine.Step(e, d, input).engine == if e.pc.Notify? then e.(pc := Idle) else e;
    case Suspend =>
      assert Machine.Step(e, d, input).engine == if e.pc.Idle? then e.(accepting := false) else e;
    case Deactivate =>
      assert !e.pc.Idle? ==> Machine.Step(e, d, input).engine == e;
    case Ignored =>
  }

  // ----- over whole runs -----

  predicate AllMinded(f: Frail)
  {
    Surviving(f) && (f.world.engine.Some? ==> Minded(f.world.engine.value, f.alarm, f.stranded))
  }

  lemma MindedFine(f: Frail, step: Worlds.Step)
    requires AllMinded(f)
    ensures AllMinded(Happen(f, Fine(step)))
  {
    SurvivingNext(f, Fine(step));
    var w := f.world;
    if step.On? {
      if Enabled(w, step.input) {
        OnStep(w, w.engine.value, step.input);
        InputMinded(w.engine.value, w.disk, step.input, f.alarm, f.stranded);
      }
    } else {
      RestMinded(f, step);
    }
  }

  lemma RestMinded(f: Frail, step: Worlds.Step)
    requires AllMinded(f) && !step.On?
    ensures
      var g := Happen(f, Fine(step));
      g.world.engine.Some? ==> Minded(g.world.engine.value, g.alarm, g.stranded)
  {
  }

  lemma MindedFailing(f: Frail, input: Input)
    requires AllMinded(f)
    ensures AllMinded(Happen(f, Failing(input)))
  {
    SurvivingNext(f, Failing(input));
    if Enabled(f.world, input) {
      InputMinded(f.world.engine.value, f.world.disk, input, f.alarm, f.stranded);
    }
  }

  lemma MindedExpiring(f: Frail, handle: nat)
    requires AllMinded(f)
    ensures AllMinded(Happen(f, Expiring(handle)))
  {
    SurvivingNext(f, Expiring(handle));
    if f.world.engine.Some? && Expects(f.world.engine.value) && handle in f.alarm.timers {
      var g := f.world.engine.value.state.value.pendingGeneration;
      if Awaited(f.alarm, g) {
        AwaitedAfterExpiry(f.alarm, handle, g);
      }
    }
  }

  lemma {:induction false} MindedRun(f: Frail, xs: seq<Occurrence>)
    requires AllMinded(f)
    ensures AllMinded(HappenAll(f, xs))
    decreases |xs|
  {
    if xs != [] {
      match xs[0] {
        case Fine(step) => MindedFine(f, step);
        case Failing(input) => MindedFailing(f, input);
        case Expiring(handle) => MindedExpiring(f, handle);
      }
      MindedRun(Happen(f, xs[0]), xs[1..]);
    }
  }

  /** Whatever writes are rolled back and whatever the clock does: while an engine accepts and has a
      transition in mind, a call of its generation is to come, or its last due re-check gave no answer, or
      an error struck after it had begun and before it was scheduled, or while it was being appended. */
  lemma NoLostWakeUpButByErrors(xs: seq<Occurrence>)
    ensures
      var f := HappenAll(Unharmed(), xs);
      f.world.engine.Some? && Expects(f.world.engine.value) ==>
        var g := f.world.engine.value.state.value.pendingGeneration;
        Covered(f.alarm, g) || f.stranded == Some(g)
  {
    MindedRun(Unharmed(), xs);
  }

  // ----- stranded transitions -----

  /** A sample begins a transition and its save fails. */
  function Strand(rule: Rule, now: Time): seq<Occurrence>
  {
    [Fine(Start(rule, Gps, false, now)), Fine(On(Sample(Seen(Outside, now), now))),
     Failing(Sample(Seen(Inside, now), now))]
  }

  function Seen(presence: Presence, now: Time): Observation
  {
    Observation(presence, now, Coordinates(0.0, 0.0), None)
  }

  lemma HappenThree(f: Frail, a: Occurrence, b: Occurrence, c: Occurrence)
    ensures HappenAll(f, [a, b, c]) == Happen(Happen(Happen(f, a), b), c)
  {
    assert [a, b, c][1..] == [b, c] && [b, c][1..] == [c] && [c][1..] == [];
    assert HappenAll(Happen(f, a), [b, c]) == HappenAll(Happen(Happen(f, a), b), [c]);
    assert HappenAll(Happen(Happen(f, a), b), [c]) == Happen(Happen(Happen(f, a), b), c);
  }

  /** It does happen: the engine goes on accepting with a transition in mind for which nothing has been
      or will be scheduled, while its row knows of none. */
  lemma StrandingHappens(rule: Rule, now: Time)
    requires rule.enabled
    ensures
      var f := HappenAll(Unharmed(), Strand(rule, now));
      && f.world.engine.Some? && Expects(f.world.engine.value) && f.alarm == NO_ALARM
      && f.stranded == GenerationOf(f.world.engine.value.state) && !Pending(f.world.disk)
  {
    HappenThree(
      Unharmed(), Fine(Start(rule, Gps, false, now)), Fine(On(Sample(Seen(Outside, now), now))),
      Failing(Sample(Seen(Inside, now), now)));
  }

  /** A failed save leaves the calls as they are at that moment: what a sample cancels is cancelled already,
      and a due decision lets go of its handle only if it saves nothing. */
  lemma FailureAndCalls(f: Frail, o: Observation, now: Time, answer: Option<Presence>, id: Id)
    requires f.world.engine.Some? && id >= f.world.past.nextId
    ensures Happen(f, Failing(Sample(o, now))).alarm == Ring(f.world, On(Sample(o, now)), f.alarm)
    ensures
      var (e, u) := (f.world.engine.value, Happen(f, Failing(Tick(now, answer, id))));
      e.pc.Confirm? && e.state.Some? && PendingComplete(e.state.value) && e.state.value.pendingDeadline.value <= now ==>
        u.alarm == if answer.Some? then f.alarm
                   else f.alarm.(held := None, silent := Some(e.state.value.pendingGeneration))
  {
  }

  /** The next accepted sample whose save goes through brings memory and row together. It sees to the
      transition, by ending it or by consulting the re-check and acting on it, exactly when it speaks for
      the confirmed presence or comes at or after the deadline; otherwise still nothing is scheduled. */
  lemma NextSampleRepairs(
    e: Engine, d: Disk, o: Observation, a: Alarm, t1: Time, t2: Time, t3: Time, answer: Option<Presence>, id: Id)
    requires Expects(e) && e.pc.Idle? && Shaped(e.state.value)
    requires o.presence != Unknown && !IsStale(e.state.value, o) && t1 <= t2 <= t3
    ensures
      var sampled := Machine.Step(e, d, Sample(o, t1));
      var checked := Machine.Step(sampled.engine, sampled.disk, Tick(t2, answer, id));
      var third := Machine.Step(checked.engine, checked.disk, Tick(t3, answer, id));
      && sampled.engine.state == sampled.disk.row
      && (o.presence == e.state.value.presence || e.state.value.pendingDeadline.value <= t2 <==>
            !Pending(sampled.disk) || Decided(third.effect))
      && (Pending(sampled.disk) && !Decided(third.effect) ==>
            && Expects(checked.engine) && GenerationOf(checked.engine.state) == GenerationOf(e.state)
            && Handle(sampled.engine, sampled.disk, Tick(t2, answer, id), Handle(e, d, Sample(o, t1), a)) == a)
  {
  }
}
