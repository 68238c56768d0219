/** What each input to an engine makes of its row and of the recorded events, field by field, and what
    a whole transition leaves behind. */
module Outcomes {
  import opened Wrappers
  import opened Models
  import opened RuntimeStates
  import opened Machine
  import opened Worlds
  import opened Safety
  import Alarms

  /** An engine that accepts and holds no lock. */
  predicate Attentive(w: World)
  {
    Coherent(w) && w.engine.Some? && w.engine.value.accepting && w.engine.value.pc.Idle?
  }

  /** The lock holder is about to confirm. */
  predicate Confirming(w: World)
  {
    Coherent(w) && w.engine.Some? && w.engine.value.pc.Confirm?
  }

  // ----- samples -----

  /** The first usable sample of a lifetime is remembered as its baseline. */
  lemma FirstSample(w: World, o: Observation, now: Time)
    requires Attentive(w) && w.disk.row.None?
    ensures
      var (e, u) := (w.engine.value, Next(w, On(Sample(o, now))));
      var coordinates := if e.storeCoordinates then Some(o.coordinates) else None;
      if o.presence == Unknown then u == w
      else
        && u.disk.keys == w.disk.keys
        && u.disk.row == Some(RuntimeState(
             e.rule.id, o.presence, None, None, None, None, None, None, None, None, 0,
             Some(o.observedAt), coordinates, o.accuracy, Some(o.observedAt), now))
        && u.engine == Some(e.(state := u.disk.row))
  {
  }

  /** The row with the measurements of a sample. */
  function Seen(s: RuntimeState, o: Observation, keeps: bool, now: Time): RuntimeState
  {
    s.(latestObservationAt := Some(o.observedAt),
       latestCoordinates := if keeps then Some(o.coordinates) else None,
       latestAccuracy := o.accuracy,
       lastProcessedAt := Some(o.observedAt),
       updatedAt := now)
  }

  /** Any later sample is dropped, ends a pending transition, refreshes it, or begins one that waits
      for its own direction's seconds; nothing else in the row changes. */
  lemma LaterSample(w: World, o: Observation, now: Time)
    requires Attentive(w) && w.disk.row.Some?
    ensures
      var (e, s, u) := (w.engine.value, w.disk.row.value, Next(w, On(Sample(o, now))));
      var seen := Seen(s, o, e.storeCoordinates, now);
      var seconds := SecondsTo(e.rule, o.presence);
      if o.presence == Unknown || (s.lastProcessedAt.Some? && s.lastProcessedAt.value > o.observedAt) then u == w
      else
        && u.disk.keys == w.disk.keys
        && u.engine == Some(e.(state := u.disk.row, pc := u.engine.value.pc))
        && if o.presence == s.presence then
             && u.engine.value.pc.Idle?
             && u.disk.row == Some(seen.(pendingTransition := None, pendingStartedAt := None, pendingDeadline := None))
           else if s.pendingTransition.Some? then u.engine.value.pc.Check? && u.disk.row == Some(seen)
           else
             && u.engine.value.pc.Restore?
             && u.disk.row == Some(seen.(
                  pendingTransition := Some(o.presence), pendingStartedAt := Some(now),
                  pendingDeadline := Some(now + seconds * 1_000_000), pendingGeneration := s.pendingGeneration + 1))
  {
  }

  // ----- callbacks and readings -----

  /** A callback takes up the pending transition of its own generation, and nothing else. */
  lemma Callback(w: World, generation: nat)
    requires Attentive(w)
    ensures
      var u := Next(w, On(Fire(generation)));
      && u.disk == w.disk && u.past == w.past && u.engine == Some(w.engine.value.(pc := u.engine.value.pc))
      && (u.engine.value.pc.Confirm? <==>
            && w.disk.row.Some? && w.disk.row.value.pendingTransition.Some?
            && w.disk.row.value.pendingGeneration == generation)
      && (u.engine.value.pc.Confirm? || u.engine.value.pc.Idle?)
  {
  }

  /** A reading before the deadline leaves the transition pending; one at or after it goes on. */
  lemma Waiting(w: World, now: Time, answer: Option<Presence>, id: Id)
    requires Coherent(w) && w.engine.Some? && w.past.nextId <= id
    requires w.engine.value.pc.Check? || w.engine.value.pc.Restore? || w.engine.value.pc.Confirm?
    ensures
      var (pc, deadline) := (w.engine.value.pc, w.disk.row.value.pendingDeadline.value);
      var u := Next(w, On(Tick(now, answer, id)));
      if now < deadline then u == w.(engine := Some(w.engine.value.(pc := if pc.Confirm? then Restore else Idle)))
      else !pc.Confirm? ==> u == w.(engine := Some(w.engine.value.(pc := Confirm)))
  {
  }

  /** The end of the cooldown in the direction of this presence. */
  function CooldownTo(s: RuntimeState, target: Presence): Option<Time>
  {
    if target == Inside then s.enterCooldownUntil else s.exitCooldownUntil
  }

  /** A re-check that answers nothing, or something else, or that falls into a cooldown. */
  lemma DecidedWithoutEvent(w: World, now: Time, answer: Option<Presence>, id: Id)
    requires Confirming(w) && w.past.nextId <= id && w.disk.row.value.pendingDeadline.value <= now
    ensures
      var (e, s, u) := (w.engine.value, w.disk.row.value, Next(w, On(Tick(now, answer, id))));
      var settled := s.(pendingTransition := None, pendingStartedAt := None, pendingDeadline := None, updatedAt := now);
      var cooldown := CooldownTo(s, s.pendingTransition.value);
      && (answer.None? ==> u == w.(engine := Some(e.(pc := Idle))))
      && (answer.Some? && answer != s.pendingTransition ==>
            && u.disk == w.disk.(row := Some(settled))
            && u.engine == Some(e.(state := Some(settled), pc := Idle)) && u.past.journal == w.past.journal)
      && (answer.Some? && answer == s.pendingTransition && cooldown.Some? && now < cooldown.value ==>
            && u.disk == w.disk.(row := Some(settled.(presence := answer.value)))
            && u.engine == Some(e.(state := u.disk.row, pc := Idle)) && u.past.journal == w.past.journal)
  {
  }

  /** The event that a confirmation records: the engine's rule, the start and the deadline of the transition,
      the measurements of its last sample, and nothing that only a person could add. */
  function EventFor(e: Engine, s: RuntimeState, now: Time): LocationEvent
    requires s.pendingStartedAt.Some?
  {
    LocationEvent(
      e.rule.journal, Some(e.rule.id), e.rule.tracker, e.rule.place,
      if s.pendingTransition == Some(Inside) then Enter else Exit,
      s.pendingStartedAt.value, now, s.latestCoordinates, s.latestAccuracy, e.source,
      Confirmed, None, None, Some(s.pendingGeneration), s.pendingDeadline, now, now)
  }

  /** Otherwise the event is recorded together with the new presence, its own direction's cooldown and
      itself as the last event; unless its key is taken, and then nothing changes. */
  lemma DecidedWithEvent(w: World, now: Time, id: Id)
    requires Confirming(w) && w.past.nextId <= id && w.disk.row.value.pendingDeadline.value <= now
    requires
      var cooldown := CooldownTo(w.disk.row.value, w.disk.row.value.pendingTransition.value);
      cooldown.Some? ==> cooldown.value <= now
    ensures
      var (e, s) := (w.engine.value, w.disk.row.value);
      var u := Next(w, On(Tick(now, s.pendingTransition, id)));
      var key := Key(s.pendingGeneration, s.pendingDeadline.value);
      var enters := s.pendingTransition == Some(Inside);
      var ends := Some(now + e.rule.cooldownSeconds * 1_000_000);
      var confirmed := s.(
        presence := s.pendingTransition.value,
        pendingTransition := None, pendingStartedAt := None, pendingDeadline := None,
        lastEventId := Some(id), lastEventType := Some(if enters then Enter else Exit), lastEventAt := Some(now),
        enterCooldownUntil := if enters then ends else s.enterCooldownUntil,
        exitCooldownUntil := if enters then s.exitCooldownUntil else ends,
        updatedAt := now);
      if key in w.disk.keys then
        u.disk == w.disk && u.engine == Some(e.(pc := Idle)) && u.past.journal == w.past.journal
      else
        && u.disk == Disk(Some(confirmed), w.disk.keys + {key})
        && u.engine == Some(e.(state := Some(confirmed), pc := Notify(id)))
        && |u.past.journal| == |w.past.journal| + 1 && u.past.journal[..|w.past.journal|] == w.past.journal
        && u.past.journal[|w.past.journal|].id == id
        && u.past.journal[|w.past.journal|].event == EventFor(e, s, now)
        && u.past.notes == w.past.notes
  {
    var (e, s) := (w.engine.value, w.disk.row.value);
    var built := BuildConfirmedTransition(e.rule, e.source, s, now, s.pendingGeneration, id);
    assert built.Success? && EventOf(built.value) == EventFor(e, s, now);
  }

  /** After its commit an event is announced once. */
  lemma Announcement(w: World)
    requires Coherent(w) && w.engine.Some? && w.engine.value.pc.Notify?
    ensures
      var u := Next(w, On(Announce));
      && u.disk == w.disk && u.engine == Some(w.engine.value.(pc := Idle))
      && u.past == w.past.(notes := w.past.notes + [w.engine.value.pc.event])
  {
  }

  // ----- timers -----

  /** The held call is cancelled, and nothing else happens to the calls. */
  ghost predicate HeldCancelled(a: Alarms.Alarm, b: Alarms.Alarm)
  {
    && b.held.None? && b.queued == a.queued && b.next == a.next && b.delays == a.delays
    && (forall h :: h in b.timers <==> h in a.timers && a.held != Some(h))
    && (forall h :: h in b.timers ==> b.timers[h] == a.timers[h])
  }

  /** A sample cancels the held call when it ends a pending transition or begins one; only then. */
  lemma SampleCancels(w: World, a: Alarms.Alarm, o: Observation, now: Time)
    requires Attentive(w)
    ensures
      var (row, b) := (w.disk.row, Alarms.Ring(w, On(Sample(o, now)), a));
      if row.None? || o.presence == Unknown
         || (row.value.lastProcessedAt.Some? && o.observedAt < row.value.lastProcessedAt.value)
         || (row.value.pendingTransition.Some? && o.presence != row.value.presence) then b == a
      else HeldCancelled(a, b)
  {
  }

  /** So do suspension and deactivation; a callback that takes the lock is not waiting any more. */
  lemma CallsEnd(w: World, a: Alarms.Alarm, generation: nat)
    requires Attentive(w)
    ensures HeldCancelled(a, Alarms.Ring(w, On(Suspend), a)) && HeldCancelled(a, Alarms.Ring(w, On(Deactivate), a))
    ensures
      var b := Alarms.Ring(w, On(Fire(generation)), a);
      && b == a.(queued := b.queued)
      && b.queued[generation] == (if generation in a.queued then a.queued[generation] - 1 else 0)
      && forall g :: g != generation ==> b.queued[g] == a.queued[g]
  {
  }

  /** A live call that expires becomes a waiting callback of its generation. */
  lemma CallExpires(x: Alarms.Watch, handle: nat)
    requires handle in x.alarm.timers
    ensures
      var (a, u) := (x.alarm, Alarms.Follow(x, Alarms.Expire(handle)));
      var b := u.alarm;
      && u.world == x.world && b == a.(timers := b.timers, queued := b.queued)
      && b.queued[a.timers[handle]] == a.queued[a.timers[handle]] + 1
      && (forall g :: g != a.timers[handle] ==> b.queued[g] == a.queued[g])
      && (forall h :: h in b.timers <==> h in a.timers && h != handle)
      && (forall h :: h in b.timers ==> b.timers[h] == a.timers[h])
  {
  }

  /** A decision cancels nothing: at a missing or a contrary answer and at a taken key the handle is let go,
      and after a cooldown it is kept; after an event it is let go at the announcement. */
  lemma DecisionLetsGo(w: World, a: Alarms.Alarm, now: Time, answer: Option<Presence>, id: Id)
    requires Confirming(w) && w.past.nextId <= id && w.disk.row.value.pendingDeadline.value <= now
    ensures
      var (s, b) := (w.disk.row.value, Alarms.Ring(w, On(Tick(now, answer, id)), a));
      var cooldown := CooldownTo(s, s.pendingTransition.value);
      var taken := Key(s.pendingGeneration, s.pendingDeadline.value) in w.disk.keys;
      && b.timers == a.timers && b.queued == a.queued && b.next == a.next && b.delays == a.delays
      && b.held == (
           if answer != s.pendingTransition then None
           else if cooldown.Some? && now < cooldown.value then a.held
           else if taken then None
           else a.held)
  {
  }

  // ----- lifecycle -----

  /** A start over a stored row keeps it, pending transition and all, but for the cooldowns that have ended
      by now, each of which is cleared at its exact boundary. */
  lemma RecoveryKeepsTheRow(w: World, rule: Rule, source: Source, storeCoordinates: bool, now: Time)
    requires Coherent(w) && Drained(w) && rule.enabled && w.disk.row.Some?
    ensures
      var (s, u) := (w.disk.row.value, Next(w, Start(rule, source, storeCoordinates, now)));
      var (enter, exit) := (s.enterCooldownUntil, s.exitCooldownUntil);
      var recovered := s.(
        enterCooldownUntil := if enter.Some? && now < enter.value then enter else None,
        exitCooldownUntil := if exit.Some? && now < exit.value then exit else None,
        updatedAt := now);
      && u.disk == w.disk.(row := Some(recovered)) && u.past == w.past
      && u.engine == Some(Engine(rule, source, storeCoordinates, true, Some(recovered),
                                 if s.pendingTransition.Some? then Restore else Idle))
  {
  }

  /** A start without a row waits for its first sample; one of a rule that is switched off erases the row. */
  lemma RecoveryWithoutRow(w: World, rule: Rule, source: Source, storeCoordinates: bool, now: Time)
    requires Coherent(w) && Drained(w) && (rule.enabled ==> w.disk.row.None?)
    ensures
      var u := Next(w, Start(rule, source, storeCoordinates, now));
      && u.disk == w.disk.(row := None)
      && u.engine == Some(Engine(rule, source, storeCoordinates, rule.enabled, None, Idle))
  {
  }

  /** Suspension keeps memory and row; deactivation keeps neither, but every event. */
  lemma Ending(w: World)
    requires Attentive(w)
    ensures Next(w, On(Suspend)) == w.(engine := Some(w.engine.value.(accepting := false)))
    ensures
      var u := Next(w, On(Deactivate));
      && u.engine == Some(w.engine.value.(accepting := false, state := None))
      && u.disk == w.disk.(row := None) && u.past.journal == w.past.journal
  {
  }

  // ----- a whole transition -----

  /** An opposite sample, a reading before the deadline, a callback, an agreeing re-check at or after the
      deadline and the announcement. */
  function Transition(w: World, o: Observation, t0: Time, t1: Time, t2: Time, id: Id): seq<Step>
    requires w.disk.row.Some?
  {
    [On(Sample(o, t0)), On(Tick(t1, None, id)), On(Fire(w.disk.row.value.pendingGeneration + 1)),
     On(Tick(t2, Some(o.presence), id)), On(Announce)]
  }

  /** The first two: the transition is pending and its deadline is scheduled. */
  lemma TransitionBegins(w: World, o: Observation, t0: Time, t1: Time, id: Id)
    requires Attentive(w) && w.disk.row.Some? && w.disk.row.value.pendingTransition.None? && w.past.nextId <= id
    requires o.presence != Unknown && o.presence != w.disk.row.value.presence
    requires w.disk.row.value.lastProcessedAt.Some? ==> w.disk.row.value.lastProcessedAt.value <= o.observedAt
    requires t1 < t0 + SecondsTo(w.engine.value.rule, o.presence) * 1_000_000
    ensures
      var (e, s, u) := (w.engine.value, w.disk.row.value, Next(Next(w, On(Sample(o, t0))), On(Tick(t1, None, id))));
      && Attentive(u) && u.engine == Some(e.(state := u.disk.row)) && u.disk.keys == w.disk.keys
      && u.disk.row == Some(Seen(s, o, e.storeCoordinates, t0).(
           pendingTransition := Some(o.presence), pendingStartedAt := Some(t0),
           pendingDeadline := Some(t0 + SecondsTo(e.rule, o.presence) * 1_000_000),
           pendingGeneration := s.pendingGeneration + 1))
      && u.past.journal == w.past.journal && u.past.notes == w.past.notes && u.past.nextId == w.past.nextId
  {
    var v := Next(w, On(Sample(o, t0)));
    LaterSample(w, o, t0);
    CoherentNext(w, On(Sample(o, t0)));
    assert v.past.journal == w.past.journal && v.past.notes == w.past.notes && v.past.nextId == w.past.nextId;
    Waiting(v, t1, None, id);
    CoherentNext(v, On(Tick(t1, None, id)));
  }

  function SecondsTo(rule: Rule, target: Presence): nat
  {
    if target == Inside then rule.enterSeconds else rule.exitSeconds
  }

  /** The last three: the event is recorded and announced. */
  lemma TransitionEnds(w: World, t: Time, id: Id)
    requires Attentive(w) && w.disk.row.Some? && w.disk.row.value.pendingTransition.Some? && w.past.nextId <= id
    requires
      var s := w.disk.row.value;
      && s.pendingDeadline.value <= t && Key(s.pendingGeneration, s.pendingDeadline.value) !in w.disk.keys
      && var cooldown := CooldownTo(s, s.pendingTransition.value); cooldown.Some? ==> cooldown.value <= t
    ensures
      var (e, s, n) := (w.engine.value, w.disk.row.value, |w.past.journal|);
      var u := Next(Next(Next(w, On(Fire(s.pendingGeneration))), On(Tick(t, s.pendingTransition, id))), On(Announce));
      && Attentive(u) && u.disk.row.Some? && u.disk.row.value.presence == s.pendingTransition.value
      && u.disk.row.value.pendingTransition.None?
      && |u.past.journal| == n + 1 && u.past.journal[..n] == w.past.journal && u.past.notes == w.past.notes + [id]
      && u.past.journal[n].id == id && u.past.journal[n].event == EventFor(e, s, t)
  {
    var s := w.disk.row.value;
    var v := Next(w, On(Fire(s.pendingGeneration)));
    Callback(w, s.pendingGeneration);
    CoherentNext(w, On(Fire(s.pendingGeneration)));
    var u := Next(v, On(Tick(t, s.pendingTransition, id)));
    DecidedWithEvent(v, t, id);
    CoherentNext(v, On(Tick(t, s.pendingTransition, id)));
    Announcement(u);
    CoherentNext(u, On(Announce));
  }

  /** A change of presence that lasts is recorded: the event begins with the sample and is confirmed by the
      re-check, it carries the sample's measurements, and it is announced. */
  lemma TransitionIsRecorded(w: World, o: Observation, t0: Time, t1: Time, t2: Time, id: Id)
    requires Attentive(w) && w.disk.row.Some? && w.disk.row.value.pendingTransition.None? && w.past.nextId <= id
    requires o.presence != Unknown && o.presence != w.disk.row.value.presence
    requires w.disk.row.value.lastProcessedAt.Some? ==> w.disk.row.value.lastProcessedAt.value <= o.observedAt
    requires
      var (s, deadline) := (w.disk.row.value, t0 + SecondsTo(w.engine.value.rule, o.presence) * 1_000_000);
      && t1 < deadline <= t2 && Key(s.pendingGeneration + 1, deadline) !in w.disk.keys
      && (CooldownTo(s, o.presence).Some? ==> CooldownTo(s, o.presence).value <= t2)
    ensures
      var (e, n, u) := (w.engine.value, |w.past.journal|, Run(w, Transition(w, o, t0, t1, t2, id)));
      && Attentive(u) && u.disk.row.Some? && u.disk.row.value.presence == o.presence
      && u.disk.row.value.pendingTransition.None?
      && |u.past.journal| == n + 1 && u.past.journal[..n] == w.past.journal && u.past.notes == w.past.notes + [id]
      && var event := u.past.journal[n].event;
         && u.past.journal[n].id == id && event.ruleId == Some(e.rule.id)
         && event.eventType == (if o.presence == Inside then Enter else Exit)
         && event.occurredAt == t0 && event.confirmedAt == t2 && event.accuracy == o.accuracy
         && event.coordinates == (if e.storeCoordinates then Some(o.coordinates) else None)
  {
    var g := w.disk.row.value.pendingGeneration + 1;
    var w2 := Next(Next(w, On(Sample(o, t0))), On(Tick(t1, None, id)));
    TransitionBegins(w, o, t0, t1, id);
    TransitionEnds(w2, t2, id);
    RunFive(
      w, On(Sample(o, t0)), On(Tick(t1, None, id)), On(Fire(g)), On(Tick(t2, Some(o.presence), id)), On(Announce));
  }

  lemma RunFive(w: World, a: Step, b: Step, c: Step, d: Step, e: Step)
    ensures Run(w, [a, b, c, d, e]) == Next(Next(Next(Next(Next(w, a), b), c), d), e)
  {
    assert [a, b, c, d, e] == [a] + [b, c, d, e] && [b, c, d, e] == [b] + [c, d, e];
    assert [c, d, e] == [c] + [d, e] && [d, e] == [d] + [e] && [e] == [e] + [];
    RunCons(w, a, [b, c, d, e]);
    RunCons(Next(w, a), b, [c, d, e]);
    RunCons(Next(Next(w, a), b), c, [d, e]);
    RunCons(Next(Next(Next(w, a), b), c), d, [e]);
    RunCons(Next(Next(Next(Next(w, a), b), c), d), e, []);
  }
}
