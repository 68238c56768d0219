/** When an append can be refused as a duplicate although nothing was replayed.

    Deleting the runtime row restarts the generations while the events stay, so a
    later lifetime can meet an old key. While the clock does not run backward that
    takes a confirmation interval of zero seconds and a clock that stood still. */
module Duplicates {
  import opened Wrappers
  import opened Models
  import opened RuntimeStates
  import opened Machine
  import opened Worlds
  import opened Safety

  /** A pending transition started after every event so far was confirmed. */
  predicate Ordered(h: History, disk: Disk, clock: Time)
  {
    && (forall k :: 0 <= k < |h.journal| ==> h.journal[k].event.confirmedAt <= clock)
    && (Pending(disk) ==>
          forall k :: 0 <= k < |h.journal| ==> h.journal[k].event.confirmedAt <= disk.row.value.pendingStartedAt.value)
  }

  /** Transitions start and are confirmed at the clock reading of their step. */
  predicate Timely(effect: Effect, b: Disk, now: Time)
  {
    && (effect.Began? ==> b.row.Some? && b.row.value.pendingStartedAt == Some(now))
    && (effect.Committed? ==> effect.flip.at == now)
  }

  lemma TimelyNext(w: World, step: Step, clock: Time)
    requires Coherent(w)
    ensures Timely(EffectOf(w, step), Next(w, step).disk, Later(clock, step))
  {
  }

  lemma {:induction false} OrderedRun(w: World, steps: seq<Step>, clock: Time)
    requires Sound(w) && Ordered(w.past, w.disk, clock) && Forward(clock, steps)
    ensures Sound(Run(w, steps))
    ensures Ordered(Run(w, steps).past, Run(w, steps).disk, ClockAfter(clock, steps))
    decreases |steps|
  {
    if steps != [] {
      var (step, w') := (steps[0], Next(w, steps[0]));
      CoherentNext(w, step);
      TimelyNext(w, step, clock);
      OrderedMove(w.past, w.disk, EffectOf(w, step), w'.disk, clock, Later(clock, step));
      SoundNext(w, step);
      OrderedRun(w', steps[1..], Later(clock, step));
    }
  }

  lemma OrderedMove(h: History, a: Disk, effect: Effect, b: Disk, clock: Time, now: Time)
    requires Ordered(h, a, clock) && clock <= now
    requires Move(a, effect, b) && Timely(effect, b, now)
    ensures Ordered(Record(h, effect), b, now)
  {
  }

  /** The rule asks for no confirmation seconds in this direction. */
  predicate NoWait(rule: Rule, target: Presence)
  {
    (target == Inside ==> rule.enterSeconds == 0) && (target == Outside ==> rule.exitSeconds == 0)
  }

  /** With a clock that does not run backward, only a transition with zero confirmation seconds
      can be refused, and only at the very instant an event of an earlier lifetime was confirmed. */
  lemma DuplicateNeedsStandstill(clock: Time, steps: seq<Step>, step: Step)
    requires Forward(clock, steps)
    requires EffectOf(Run(Genesis(), steps), step).Duplicate?
    ensures
      var w := Run(Genesis(), steps);
      && Pending(w.disk)
      && w.past.under.Some? && NoWait(w.past.under.value, w.disk.row.value.pendingTransition.value)
      && exists k :: 0 <= k < |w.past.journal|
                     && w.past.journal[k].lifetime < w.past.lifetime
                     && w.past.journal[k].event.confirmedAt == w.disk.row.value.pendingStartedAt.value
  {
    var w := Run(Genesis(), steps);
    OrderedRun(Genesis(), steps, clock);
    CoherentNext(w, step);
    CollisionStandsStill(w, ClockAfter(clock, steps));
  }

  lemma CollisionStandsStill(w: World, clock: Time)
    requires Sound(w) && Ordered(w.past, w.disk, clock)
    requires Pending(w.disk) && PendingKey(w.disk.row.value) in w.disk.keys
    ensures w.past.under.Some? && NoWait(w.past.under.value, w.disk.row.value.pendingTransition.value)
    ensures exists k :: 0 <= k < |w.past.journal|
                        && w.past.journal[k].lifetime < w.past.lifetime
                        && w.past.journal[k].event.confirmedAt == w.disk.row.value.pendingStartedAt.value
  {
  }

  // ----- it does happen -----

  const INSTANT_RULE := Rule(1, 2, 3, 4, true, 0, 0, 0)

  function Seen(presence: Presence): Step
  {
    On(Sample(Observation(presence, 0, Coordinates(0.0, 0.0), None), 0))
  }

  function Due(newId: Id): Step
  {
    On(Tick(0, Some(Inside), newId))
  }

  /** A new engine sees a baseline outside, then a sample inside, up to the due confirmation. */
  function Visit(newId: Id): seq<Step>
  {
    [Start(INSTANT_RULE, Gps, false, 0), Seen(Outside), Seen(Inside), Due(newId)]
  }

  /** A due confirmation of the first transition of a lifetime, at instant zero. */
  predicate AtConfirmation(w: World, newId: Id)
  {
    && w.engine.Some? && w.engine.value.accepting && w.engine.value.pc.Confirm?
    && w.engine.value.rule == INSTANT_RULE
    && w.engine.value.state == w.disk.row
    && Pending(w.disk) && PendingKey(w.disk.row.value) == Key(1, 0)
    && w.disk.row.value.pendingTransition == Some(Inside)
    && w.disk.row.value.enterCooldownUntil.None?
    && w.past.nextId <= newId
  }

  lemma VisitLeadsToConfirmation(w: World, newId: Id)
    requires Drained(w) && w.disk.row.None? && w.past.nextId <= newId
    ensures
      var w' := Run(w, Visit(newId));
      AtConfirmation(w', newId) && w'.disk.keys == w.disk.keys && w'.past.journal == w.past.journal
  {
    var v := Visit(newId);
    var a := Next(Next(Next(w, v[0]), v[1]), v[2]);
    assert a.engine.Some? && a.engine.value.pc.Restore? && AtConfirmation(Next(a, v[3]), newId);
    RunFour(w, v[0], v[1], v[2], v[3]);
  }

  lemma RunFour(w: World, a: Step, b: Step, c: Step, d: Step)
    ensures Run(w, [a, b, c, d]) == Next(Next(Next(Next(w, a), b), c), d)
  {
    assert [a, b, c, d] == [a] + ([b] + ([c] + ([d] + [])));
    RunCons(w, a, [b] + ([c] + ([d] + [])));
    RunCons(Next(w, a), b, [c] + ([d] + []));
    RunCons(Next(Next(w, a), b), c, [d] + []);
    RunCons(Next(Next(Next(w, a), b), c), d, []);
  }

  /** The event commits, the rule is deactivated, and the row is gone while the key stays. */
  lemma LeaveAfterCommit(w: World)
    requires AtConfirmation(w, 0) && w.disk.keys == {} && w.past.journal == []
    ensures
      var w' := Run(w, Leave());
      Drained(w') && w'.disk == Disk(None, {Key(1, 0)}) && |w'.past.journal| == 1 && w'.past.nextId == 1
  {
    var l := Leave();
    assert l[1..] == [l[1], l[2]];
    assert l[1..][1..] == [l[2]];
    var a := Next(w, l[0]);
    assert a.engine.value.pc == Notify(0) && a.disk.keys == {Key(1, 0)} && |a.past.journal| == 1;
    assert Run(w, l) == Next(Next(a, l[1]), l[2]);
  }

  function Leave(): seq<Step>
  {
    [Due(0), On(Announce), On(Deactivate)]
  }

  lemma SecondVisit()
    ensures
      var w := Run(Genesis(), Visit(0) + Leave() + Visit(1));
      AtConfirmation(w, 1) && w.disk.keys == {Key(1, 0)} && |w.past.journal| == 1
  {
    VisitLeadsToConfirmation(Genesis(), 0);
    RunConcat(Genesis(), Visit(0), Leave());
    LeaveAfterCommit(Run(Genesis(), Visit(0)));
    RunConcat(Genesis(), Visit(0) + Leave(), Visit(1));
    VisitLeadsToConfirmation(Run(Genesis(), Visit(0) + Leave()), 1);
  }

  lemma RefusedAt(w: World)
    requires AtConfirmation(w, 1) && w.disk.keys == {Key(1, 0)}
    ensures EffectOf(w, Due(1)).Duplicate?
    ensures Next(w, Due(1)).disk == w.disk && Next(w, Due(1)).past.journal == w.past.journal
  {
  }

  /** A rule with zero confirmation seconds that is deactivated and comes back at the same instant
      loses its second enter event: the append is refused and the transition stays pending. */
  lemma DuplicateHappens()
    ensures
      var steps := Visit(0) + Leave() + Visit(1);
      var w := Run(Genesis(), steps);
      && Forward(0, steps)
      && EffectOf(w, Due(1)).Duplicate?
      && Pending(Next(w, Due(1)).disk)
      && |Next(w, Due(1)).past.journal| == 1
  {
    SecondVisit();
    RefusedAt(Run(Genesis(), Visit(0) + Leave() + Visit(1)));
    StandingStill(Visit(0) + Leave() + Visit(1));
  }

  /** A run that reads the clock only at instant zero does not run it backward. */
  lemma {:induction false} StandingStill(steps: seq<Step>)
    requires forall k :: 0 <= k < |steps| ==> Later(0, steps[k]) == 0
    ensures Forward(0, steps)
    decreases |steps|
  {
    if steps != [] {
      StandingStill(steps[1..]);
    }
  }

  // ----- two engines, one transition -----

  /** This engine is about to confirm the state's transition, which is due and not cooling down. */
  predicate AboutToConfirm(e: Engine, s: RuntimeState, now: Time)
  {
    && e.pc.Confirm? && e.state == Some(s) && Shaped(s) && PendingComplete(s)
    && s.pendingDeadline.value <= now
    && var cooldown := DirectionCooldown(s, s.pendingTransition.value);
       !(cooldown.Some? && now < cooldown.value)
  }

  lemma Confirmation(e: Engine, d: Disk, s: RuntimeState, now: Time, id: Id)
    requires AboutToConfirm(e, s, now) && d.row.Some?
    ensures
      var o := Machine.Step(e, d, Tick(now, s.pendingTransition, id));
      && PendingKey(s) in o.disk.keys && o.engine.state == o.disk.row && o.disk.row.Some?
      && (PendingKey(s) !in d.keys ==> o.effect.Committed?)
      && (PendingKey(s) in d.keys ==> o.effect.Duplicate? && o.disk == d)
  {
  }

  /** When two engines on one database confirm the same transition, one after the other, one event
      is recorded and the loser takes over what the winner stored. */
  lemma OneWinner(a: Engine, b: Engine, d: Disk, s: RuntimeState, t: Time, u: Time, i: Id, j: Id)
    requires AboutToConfirm(a, s, t) && AboutToConfirm(b, s, u) && d.row.Some? && PendingKey(s) !in d.keys
    ensures
      var x := Machine.Step(a, d, Tick(t, s.pendingTransition, i));
      var y := Machine.Step(b, x.disk, Tick(u, s.pendingTransition, j));
      && x.effect.Committed? && y.effect.Duplicate?
      && y.disk == x.disk && y.engine.state == x.engine.state == x.disk.row
  {
    Confirmation(a, d, s, t, i);
    var x := Machine.Step(a, d, Tick(t, s.pendingTransition, i));
    Confirmation(b, x.disk, s, u, j);
  }
}
