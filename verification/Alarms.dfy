/** Timers: no pending transition is forgotten.

    A scheduled call can be cancelled until its timer expires; then its callback
    waits for the engine's lock. The engine keeps the handle of one call only, and
    drops it on some paths without cancelling it. */
module Alarms {
  import opened Wrappers
  import opened Models
  import opened Machine
  import opened Worlds
  import opened Safety
  import Erasure

  datatype Alarm = Alarm(
    held: Option<nat>,     // the handle the engine keeps
    timers: map<nat, nat>, // scheduled calls that have not expired: handle to generation
    queued: multiset<nat>, // generations of callbacks that wait for the lock
    next: nat,             // the next handle
    delays: map<nat, Time>, // how long each scheduled call was to wait, by handle
    silent: Option<nat>,   // the generation whose last due re-check gave no answer
    refused: Option<nat>)  // the generation whose last append was refused as a duplicate

  datatype Watch = Watch(world: World, alarm: Alarm)

  datatype Event = Do(step: Step) | Expire(handle: nat)

  const NO_ALARM := Alarm(None, map[], multiset{}, 0, map[], None, None)

  function Cancel(a: Alarm): Alarm
  {
    match a.held
    case None => a
    case Some(handle) => a.(held := None, timers := a.timers - {handle})
  }

  function Schedule(a: Alarm, generation: nat, delay: Time): Alarm
  {
    a.(held := Some(a.next), timers := a.timers[a.next := generation], next := a.next + 1,
       delays := a.delays[a.next := delay])
  }

  /** The alarm after an input that a living engine takes. */
  function Handle(e: Engine, d: Disk, input: Input, a: Alarm): Alarm
  {
    var effect := Machine.Step(e, d, input).effect;
    match input
    case Ignored => a
    case Sample(_, _) =>
      if effect.Agreed? then Cancel(a)
      else if effect.Began? then Cancel(a).(silent := None, refused := None)
      else a
    case Fire(generation) => if e.pc.Idle? then a.(queued := a.queued - multiset{generation}) else a
    case Tick(now, _, _) =>
      if e.pc.Restore? && Waits(e, now) then Schedule(a, e.state.value.pendingGeneration, Remaining(e, now))
      else if effect.Silent? then a.(held := None, silent := Some(e.state.value.pendingGeneration))
      else if effect.Duplicate? then a.(held := None, refused := Some(e.state.value.pendingGeneration))
      else if effect.Cancelled? then a.(held := None)
      else a
    case Announce => if e.pc.Notify? then a.(held := None) else a
    case Suspend => if e.pc.Idle? then Cancel(a) else a
    case Deactivate => if e.pc.Idle? then Cancel(a) else a
  }

  /** The deadline is still ahead. */
  predicate Waits(e: Engine, now: Time)
  {
    e.state.Some? && e.state.value.pendingDeadline.Some? && now < e.state.value.pendingDeadline.value
  }

  /** How long it still is to the deadline. */
  function Remaining(e: Engine, now: Time): Time
    requires Waits(e, now)
  {
    e.state.value.pendingDeadline.value - now
  }

  /** A timer expires: its callback now waits for the lock. */
  function Expired(a: Alarm, handle: nat): Alarm
  {
    if handle in a.timers then
      a.(timers := a.timers - {handle}, queued := a.queued + multiset{a.timers[handle]})
    else a
  }

  function Follow(x: Watch, event: Event): Watch
  {
    match event
    case Expire(handle) =>
      Watch(x.world, Expired(x.alarm, handle))
    case Do(step) => Watch(Next(x.world, step), Ring(x.world, step, x.alarm))
  }

  /** A dead process has no timers, and those of a replaced engine only reach that engine. */
  function Ring(w: World, step: Step, a: Alarm): Alarm
  {
    match step
    case On(input) => if Enabled(w, input) then Handle(w.engine.value, w.disk, input, a) else a
    case Crash => NO_ALARM
    case Start(_, _, _, _) => if Drained(w) then NO_ALARM else a
    case _ => a
  }

  function FollowAll(x: Watch, events: seq<Event>): Watch
    decreases |events|
  {
    if events == [] then x else FollowAll(Follow(x, events[0]), events[1..])
  }

  lemma {:induction false} FollowConcat(x: Watch, a: seq<Event>, b: seq<Event>)
    ensures FollowAll(x, a + b) == FollowAll(FollowAll(x, a), b)
    decreases |a|
  {
    if a == [] {
      assert a + b == b;
    } else {
      var (event, rest) := (a[0], a[1..]);
      FollowConcat(Follow(x, event), rest, b);
      FollowCons(x, event, rest);
      FollowCons(x, event, rest + b);
      assert a == [event] + rest && a + b == [event] + (rest + b);
    }
  }

  lemma FollowCons(x: Watch, event: Event, rest: seq<Event>)
    ensures FollowAll(x, [event] + rest) == FollowAll(Follow(x, event), rest)
  {
    assert ([event] + rest)[1..] == rest;
  }

  /** A live timer or a waiting callback carries this generation. */
  predicate Awaited(a: Alarm, generation: nat)
  {
    (exists handle :: handle in a.timers && a.timers[handle] == generation) || generation in a.queued
  }

  /** An engine that accepts, has a transition pending and is not in the middle of handling it. */
  predicate Waiting(w: World)
  {
    && w.engine.Some? && w.engine.value.accepting
    && (w.engine.value.pc.Idle? || w.engine.value.pc.Check?)
    && Pending(w.disk)
  }

  /** The pending generation has a wake-up to come, or its last due confirmation kept it pending. */
  predicate Covered(a: Alarm, generation: nat)
  {
    Awaited(a, generation) || a.silent == Some(generation) || a.refused == Some(generation)
  }

  predicate Awake(w: World, a: Alarm)
  {
    Waiting(w) ==> Covered(a, w.disk.row.value.pendingGeneration)
  }

  /** The same for an engine and its stored part alone. */
  predicate AwakeEngine(e: Engine, d: Disk, a: Alarm)
  {
    e.accepting && (e.pc.Idle? || e.pc.Check?) && Pending(d) ==> Covered(a, d.row.value.pendingGeneration)
  }

  lemma AwakeTick(e: Engine, d: Disk, now: Time, answer: Option<Presence>, newId: Id, a: Alarm)
    requires InStep(e, d) && AwakeEngine(e, d, a)
    ensures
      var input := Tick(now, answer, newId);
      var o := Machine.Step(e, d, input);
      AwakeEngine(o.engine, o.disk, Handle(e, d, input, a))
  {
    var input := Tick(now, answer, newId);
    var a' := Handle(e, d, input, a);
    Erasure.OneReading(e, d, now, answer, newId);
    StepGood(e, d, input);
    if e.pc.Restore? && Waits(e, now) {
      assert a'.timers[a.next] == e.state.value.pendingGeneration;
    }
  }

  lemma AwakeSample(e: Engine, d: Disk, observation: Observation, now: Time, a: Alarm)
    requires InStep(e, d) && AwakeEngine(e, d, a)
    ensures
      var input := Sample(observation, now);
      var o := Machine.Step(e, d, input);
      AwakeEngine(o.engine, o.disk, Handle(e, d, input, a))
  {
  }

  lemma AwakeInput(e: Engine, d: Disk, input: Input, a: Alarm)
    requires InStep(e, d) && AwakeEngine(e, d, a)
    ensures
      var o := Machine.Step(e, d, input);
      AwakeEngine(o.engine, o.disk, Handle(e, d, input, a))
  {
    match input
    case Tick(now, answer, newId) => AwakeTick(e, d, now, answer, newId, a);
    case Sample(observation, now) => AwakeSample(e, d, observation, now, a);
    case Fire(generation) => AwaitedAfterFire(a, generation);
    case _ =>
  }

  lemma AwaitedAfterFire(a: Alarm, generation: nat)
    ensures forall g :: g != generation && Awaited(a, g) ==> Awaited(a.(queued := a.queued - multiset{generation}), g)
  {
  }

  lemma AwaitedAfterExpiry(a: Alarm, handle: nat, g: nat)
    requires handle in a.timers && Awaited(a, g)
    ensures
      Awaited(a.(timers := a.timers - {handle}, queued := a.queued + multiset{a.timers[handle]}), g)
  {
    var b := a.(timers := a.timers - {handle}, queued := a.queued + multiset{a.timers[handle]});
    if g !in a.queued && a.timers[handle] != g {
      var h :| h in a.timers && a.timers[h] == g;
      assert h in b.timers && b.timers[h] == g;
    }
  }

  /** A refused append means that the row was erased before. */
  predicate Vigilant(x: Watch)
  {
    && Sound(x.world) && Awake(x.world, x.alarm)
    && (x.alarm.refused.Some? ==> x.world.past.lifetime > 0)
  }

  lemma AwakeNext(w: World, step: Step, a: Alarm)
    requires Coherent(w) && Awake(w, a)
    ensures Awake(Next(w, step), Ring(w, step, a))
  {
    CoherentNext(w, step);
    if step.On? && Enabled(w, step.input) {
      AwakeInput(w.engine.value, w.disk, step.input, a);
    }
  }

  lemma RefusedNext(w: World, step: Step, a: Alarm)
    requires Sound(w) && (a.refused.Some? ==> w.past.lifetime > 0)
    ensures Ring(w, step, a).refused.Some? ==> Next(w, step).past.lifetime > 0
  {
    if w.past.lifetime == 0 {
      NoDuplicateAtFirst(w, step);
    }
  }

  lemma VigilantFollow(x: Watch, event: Event)
    requires Vigilant(x)
    ensures Vigilant(Follow(x, event))
  {
    var (w, a) := (x.world, x.alarm);
    match event
    case Expire(handle) =>
      if handle in a.timers && Waiting(w) && Awaited(a, w.disk.row.value.pendingGeneration) {
        AwaitedAfterExpiry(a, handle, w.disk.row.value.pendingGeneration);
      }
    case Do(step) =>
      SoundNext(w, step);
      AwakeNext(w, step, a);
      RefusedNext(w, step, a);
  }

  lemma {:induction false} VigilantRun(x: Watch, events: seq<Event>)
    requires Vigilant(x)
    ensures Vigilant(FollowAll(x, events))
    decreases |events|
  {
    if events != [] {
      VigilantFollow(x, events[0]);
      VigilantRun(Follow(x, events[0]), events[1..]);
    }
  }

  /** In every run, whatever the clock does: while an engine accepts and a transition is pending,
      a live timer or a waiting callback carries its generation, or the last re-check at its deadline
      gave no answer, or (only after the row was erased once) its append was refused as a duplicate. */
  lemma NoLostWakeUp(events: seq<Event>)
    ensures
      var x := FollowAll(Watch(Genesis(), NO_ALARM), events);
      Waiting(x.world) ==>
        var generation := x.world.disk.row.value.pendingGeneration;
        || Awaited(x.alarm, generation)
        || x.alarm.silent == Some(generation)
        || (x.alarm.refused == Some(generation) && x.world.past.lifetime > 0)
  {
    VigilantRun(Watch(Genesis(), NO_ALARM), events);
  }

  /** The call for a pending transition is scheduled for its deadline, and carries its generation. */
  lemma ScheduledForTheDeadline(w: World, a: Alarm, now: Time, answer: Option<Presence>, id: Id)
    requires Coherent(w) && w.engine.Some? && w.engine.value.pc.Restore? && w.past.nextId <= id
    requires now < w.disk.row.value.pendingDeadline.value
    ensures
      var b := Follow(Watch(w, a), Do(On(Tick(now, answer, id)))).alarm;
      && b.held == Some(a.next) && a.next in b.timers && a.next in b.delays
      && b.timers[a.next] == w.disk.row.value.pendingGeneration
      && now + b.delays[a.next] == w.disk.row.value.pendingDeadline.value
  {
  }

  // ----- when nothing is scheduled -----

  function EventLater(clock: Time, event: Event): Time
  {
    if event.Do? then Later(clock, event.step) else clock
  }

  predicate EventsForward(clock: Time, events: seq<Event>)
    decreases |events|
  {
    events == [] ||
    (clock <= EventLater(clock, events[0]) && EventsForward(EventLater(clock, events[0]), events[1..]))
  }

  function EventsClock(clock: Time, events: seq<Event>): Time
    decreases |events|
  {
    if events == [] then clock else EventsClock(EventLater(clock, events[0]), events[1..])
  }

  /** A confirmation that kept its transition pending came at or after the deadline. */
  predicate Overdue(x: Watch, clock: Time)
  {
    Pending(x.world.disk) ==>
      var s := x.world.disk.row.value;
      x.alarm.silent == Some(s.pendingGeneration) || x.alarm.refused == Some(s.pendingGeneration) ==>
        s.pendingDeadline.value <= clock
  }

  lemma OverdueFollow(x: Watch, event: Event, clock: Time)
    requires Coherent(x.world) && Overdue(x, clock) && clock <= EventLater(clock, event)
    ensures Overdue(Follow(x, event), EventLater(clock, event))
  {
    if event.Do? {
      CoherentNext(x.world, event.step);
    }
  }

  lemma {:induction false} OverdueRun(x: Watch, events: seq<Event>, clock: Time)
    requires Vigilant(x) && Overdue(x, clock) && EventsForward(clock, events)
    ensures Vigilant(FollowAll(x, events)) && Overdue(FollowAll(x, events), EventsClock(clock, events))
    decreases |events|
  {
    if events != [] {
      VigilantFollow(x, events[0]);
      OverdueFollow(x, events[0], clock);
      OverdueRun(Follow(x, events[0]), events[1..], EventLater(clock, events[0]));
    }
  }

  /** With a clock that does not run backward, a pending transition without any wake-up is retried
      or cancelled by the next accepted sample. */
  lemma NextSampleResolves(
    clock: Time, events: seq<Event>, o: Observation, t1: Time, t2: Time, t3: Time, answer: Option<Presence>, id: Id)
    requires EventsForward(clock, events)
    requires EventsClock(clock, events) <= t1 <= t2 <= t3
    requires
      var x := FollowAll(Watch(Genesis(), NO_ALARM), events);
      && Waiting(x.world) && x.world.engine.value.pc.Idle?
      && !Awaited(x.alarm, x.world.disk.row.value.pendingGeneration)
      && o.presence != Unknown && !IsStale(x.world.disk.row.value, o)
      && x.world.past.nextId <= id
    ensures
      var w := FollowAll(Watch(Genesis(), NO_ALARM), events).world;
      var sampled := Next(w, On(Sample(o, t1)));
      var checked := Next(sampled, On(Tick(t2, answer, id)));
      if o.presence == w.disk.row.value.presence then !Pending(sampled.disk)
      else Decided(EffectOf(checked, On(Tick(t3, answer, id))))
  {
    OverdueRun(Watch(Genesis(), NO_ALARM), events, clock);
    var w := FollowAll(Watch(Genesis(), NO_ALARM), events).world;
    assert w.disk.row.value.pendingDeadline.value <= t1;
    SampleResolves(w, o, t1, t2, t3, answer, id);
  }

  lemma SampleResolves(
    w: World, o: Observation, t1: Time, t2: Time, t3: Time, answer: Option<Presence>, id: Id)
    requires Coherent(w) && Waiting(w) && w.engine.value.pc.Idle? && w.past.nextId <= id
    requires o.presence != Unknown && !IsStale(w.disk.row.value, o)
    requires w.disk.row.value.pendingDeadline.value <= t1 <= t2 <= t3
    ensures
      var sampled := Next(w, On(Sample(o, t1)));
      var checked := Next(sampled, On(Tick(t2, answer, id)));
      if o.presence == w.disk.row.value.presence then !Pending(sampled.disk)
      else Decided(EffectOf(checked, On(Tick(t3, answer, id))))
  {
  }

  /** A callback of the pending generation that takes the lock at or after the deadline decides. */
  lemma CallbackDecides(w: World, t: Time, answer: Option<Presence>, id: Id)
    requires Coherent(w) && Waiting(w) && w.engine.value.pc.Idle? && w.past.nextId <= id
    requires w.disk.row.value.pendingDeadline.value <= t
    ensures
      var fired := Next(w, On(Fire(w.disk.row.value.pendingGeneration)));
      Decided(EffectOf(fired, On(Tick(t, answer, id))))
  {
  }
}
