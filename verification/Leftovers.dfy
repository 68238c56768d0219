/** Timers that an engine has let go of without cancelling them, and what becomes of them. */
module Leftovers {
  import opened Wrappers
  import opened Models
  import opened RuntimeStates
  import opened Machine
  import opened Worlds
  import opened Alarms

  // ----- which timers are left over -----

  /** The live timers whose handle the engine does not keep. */
  function Loose(a: Alarm): set<nat>
  {
    set handle | handle in a.timers && a.held != Some(handle)
  }

  /** The input makes the engine forget a handle, or replace it, without cancelling the call: a decision
      other than a suppression, the announcement after a commit, or a deadline scheduled once more. */
  predicate Drops(e: Engine, d: Disk, input: Input)
  {
    var effect := Machine.Step(e, d, input).effect;
    || effect.Silent? || effect.Cancelled? || effect.Duplicate? || effect.Announced?
    || (input.Tick? && e.pc.Restore? && Waits(e, input.now))
  }

  /** The live timers after an event whose handle the engine has let go by then. */
  function LooseAfter(x: Watch, loose: set<nat>, event: Event): set<nat>
  {
    match event
    case Expire(handle) => loose - {handle}
    case Do(step) =>
      if step.Crash? || (step.Start? && Drained(x.world)) then {}
      else if step.On? && Enabled(x.world, step.input) && Drops(x.world.engine.value, x.world.disk, step.input)
              && x.alarm.held.Some? && x.alarm.held.value in x.alarm.timers then
        loose + {x.alarm.held.value}
      else loose
  }

  function LooseAfterAll(x: Watch, loose: set<nat>, events: seq<Event>): set<nat>
    decreases |events|
  {
    if events == [] then loose else LooseAfterAll(Follow(x, events[0]), LooseAfter(x, loose, events[0]), events[1..])
  }

  /** Handles are numbered in the order of scheduling. */
  predicate Ordered(a: Alarm)
  {
    forall handle :: handle in a.timers ==> handle < a.next
  }

  /** The engine lets go of its handle, or takes a new one in its place. */
  predicate Replaces(a: Alarm, b: Alarm)
  {
    || (b.timers == a.timers && b.held.None? && b.next == a.next)
    || (a.next in b.timers && a.next in b.delays && b == Schedule(a, b.timers[a.next], b.delays[a.next]))
  }

  /** The engine keeps its handle, or cancels its call. */
  predicate Keeps(a: Alarm, b: Alarm)
  {
    b.next == a.next && ((b.timers == a.timers && b.held == a.held) || (b.timers == Cancel(a).timers && b.held.None?))
  }

  lemma HandleShape(e: Engine, d: Disk, input: Input, a: Alarm)
    ensures if Drops(e, d, input) then Replaces(a, Handle(e, d, input, a)) else Keeps(a, Handle(e, d, input, a))
  {
    if input.Tick? {
      TickShape(e, d, input.now, input.answer, input.newId, a);
    } else if input.Sample? {
      SampleShape(e, d, input, a);
    } else {
      OtherShape(e, d, input, a);
    }
  }

  lemma SampleShape(e: Engine, d: Disk, input: Input, a: Alarm)
    requires input.Sample?
    ensures !Drops(e, d, input) && Keeps(a, Handle(e, d, input, a))
  {
    SampleDecidesNothing(e, d, input);
  }

  lemma OtherShape(e: Engine, d: Disk, input: Input, a: Alarm)
    requires !input.Sample? && !input.Tick?
    ensures if Drops(e, d, input) then Replaces(a, Handle(e, d, input, a)) else Keeps(a, Handle(e, d, input, a))
  {
  }

  lemma TickShape(e: Engine, d: Disk, now: Time, answer: Option<Presence>, newId: Id, a: Alarm)
    ensures
      var input := Tick(now, answer, newId);
      if Drops(e, d, input) then Replaces(a, Handle(e, d, input, a)) else Keeps(a, Handle(e, d, input, a))
  {
    var input := Tick(now, answer, newId);
    TickAnnouncesNothing(e, d, now, answer, newId);
    if e.pc.Restore? && Waits(e, now) {
      assert Handle(e, d, input, a) == Schedule(a, e.state.value.pendingGeneration, Remaining(e, now));
    } else if !Drops(e, d, input) {
      assert Handle(e, d, input, a) == a;
    }
  }

  lemma TickAnnouncesNothing(e: Engine, d: Disk, now: Time, answer: Option<Presence>, newId: Id)
    ensures !Continue(e, d, now, answer, newId).effect.Announced?
  {
    if e.state.Some? && PendingComplete(e.state.value) {
      DecisionAnnouncesNothing(e, d, e.state.value, now, answer, newId);
    }
  }

  lemma DecisionAnnouncesNothing(e: Engine, d: Disk, s: RuntimeState, now: Time, answer: Option<Presence>, newId: Id)
    requires PendingComplete(s)
    ensures !Decide(e, d, s, now, answer, newId).effect.Announced?
  {
  }

  lemma SampleDecidesNothing(e: Engine, d: Disk, input: Input)
    requires input.Sample?
    ensures !Drops(e, d, input)
  {
  }

  lemma LooseShape(a: Alarm, b: Alarm, drops: bool)
    requires Ordered(a) && if drops then Replaces(a, b) else Keeps(a, b)
    ensures Ordered(b)
    ensures
      Loose(b) ==
      if drops && a.held.Some? && a.held.value in a.timers then Loose(a) + {a.held.value} else Loose(a)
  {
  }

  lemma LooseInput(e: Engine, d: Disk, input: Input, a: Alarm)
    requires Ordered(a)
    ensures Ordered(Handle(e, d, input, a))
    ensures
      Loose(Handle(e, d, input, a)) ==
      if Drops(e, d, input) && a.held.Some? && a.held.value in a.timers then Loose(a) + {a.held.value} else Loose(a)
  {
    HandleShape(e, d, input, a);
    LooseShape(a, Handle(e, d, input, a), Drops(e, d, input));
  }

  lemma LooseFollow(x: Watch, event: Event)
    requires Ordered(x.alarm)
    ensures Ordered(Follow(x, event).alarm)
    ensures Loose(Follow(x, event).alarm) == LooseAfter(x, Loose(x.alarm), event)
  {
    if event.Do? && event.step.On? && Enabled(x.world, event.step.input) {
      LooseInput(x.world.engine.value, x.world.disk, event.step.input, x.alarm);
    }
  }

  lemma {:induction false} LooseRun(x: Watch, events: seq<Event>)
    requires Ordered(x.alarm)
    ensures Loose(FollowAll(x, events).alarm) == LooseAfterAll(x, Loose(x.alarm), events)
    decreases |events|
  {
    if events != [] {
      LooseFollow(x, events[0]);
      LooseRun(Follow(x, events[0]), events[1..]);
    }
  }

  /** What a suspension leaves running are exactly the loose timers. */
  lemma SuspensionLeaves(x: Watch)
    requires x.world.engine.Some? && x.world.engine.value.pc.Idle?
    ensures
      var y := Follow(x, Do(On(Suspend)));
      && y.alarm.timers.Keys == Loose(x.alarm)
      && (y.alarm.timers != map[] <==> exists handle :: handle in x.alarm.timers && x.alarm.held != Some(handle))
  {
    var y := Follow(x, Do(On(Suspend)));
    if handle :| handle in x.alarm.timers && x.alarm.held != Some(handle) {
      assert handle in y.alarm.timers;
    }
  }

  /** After every run, a suspended engine leaves exactly those timers running that it once let go of,
      in this process, and that have not expired since. */
  lemma SuspensionLeavesExactly(events: seq<Event>)
    requires
      var x := FollowAll(Watch(Genesis(), NO_ALARM), events);
      x.world.engine.Some? && x.world.engine.value.pc.Idle?
    ensures
      var x := Watch(Genesis(), NO_ALARM);
      Follow(FollowAll(x, events), Do(On(Suspend))).alarm.timers.Keys == LooseAfterAll(x, {}, events)
  {
    var x := Watch(Genesis(), NO_ALARM);
    LooseRun(x, events);
    assert Loose(NO_ALARM) == {};
    SuspensionLeaves(FollowAll(x, events));
  }

  // ----- what they do -----

  /** A timer that outlives its engine's suspension does nothing but wait for the lock and leave again:
      the engine and what is stored stay as they are. */
  lemma LeftoversAreHarmless(x: Watch, handle: nat, generation: nat)
    requires x.world.engine.Some? && !x.world.engine.value.accepting && x.world.engine.value.pc.Idle?
    ensures Follow(x, Expire(handle)).world == x.world
    ensures Follow(x, Do(On(Fire(generation)))).world == x.world
    ensures !Follow(x, Do(On(Fire(generation)))).world.engine.value.accepting
  {
  }

  const PATIENT_RULE := Rule(1, 2, 3, 4, true, 1, 1, 0)

  function SeenAt(presence: Presence, now: Time): Event
  {
    Do(On(Sample(Observation(presence, 0, Coordinates(0.0, 0.0), None), now)))
  }

  function TickAt(now: Time): Event
  {
    Do(On(Tick(now, None, 0)))
  }

  /** The deadline of a transition is scheduled. */
  function Scheduling(): seq<Event>
  {
    [Do(Start(PATIENT_RULE, Gps, false, 0)), SeenAt(Outside, 0), SeenAt(Inside, 0), TickAt(0)]
  }

  /** A sample finds the deadline reached before the timer expires, the re-check gives this answer and
      the engine acts on it, and then the engine is suspended. */
  function Dropping(answer: Option<Presence>): seq<Event>
  {
    [SeenAt(Inside, SECOND), TickAt(SECOND), Do(On(Tick(SECOND, answer, 0))), Do(On(Announce)), Do(On(Suspend))]
  }

  lemma FollowFour(x: Watch, a: Event, b: Event, c: Event, d: Event)
    ensures FollowAll(x, [a, b, c, d]) == Follow(Follow(Follow(Follow(x, a), b), c), d)
  {
    FollowCons(x, a, [b, c, d]);
    var y := Follow(x, a);
    FollowCons(y, b, [c, d]);
    var z := Follow(y, b);
    FollowCons(z, c, [d]);
    FollowCons(Follow(z, c), d, []);
    assert [a, b, c, d] == [a] + [b, c, d] && [b, c, d] == [b] + [c, d] && [c, d] == [c] + [d] && [d] == [d] + [];
  }

  lemma FollowFive(x: Watch, a: Event, b: Event, c: Event, d: Event, e: Event)
    ensures FollowAll(x, [a, b, c, d, e]) == Follow(Follow(Follow(Follow(Follow(x, a), b), c), d), e)
  {
    FollowCons(x, a, [b, c, d, e]);
    FollowFour(Follow(x, a), b, c, d, e);
    assert [a, b, c, d, e] == [a] + [b, c, d, e];
  }

  predicate Scheduled(x: Watch)
  {
    && x.world.engine.Some? && x.world.engine.value.accepting && x.world.engine.value.pc.Idle?
    && x.world.engine.value.state.Some?
    && var s := x.world.engine.value.state.value;
       && s.presence == Outside && s.pendingTransition == Some(Inside) && PendingComplete(s)
       && s.pendingDeadline == Some(SECOND) && s.lastProcessedAt == Some(0) && s.enterCooldownUntil.None?
       && x.alarm.timers == map[0 := s.pendingGeneration] && x.alarm.held == Some(0)
       && x.world.past.nextId == 0 && x.world.disk.keys == {}
  }

  lemma SchedulingRun()
    ensures Scheduled(FollowAll(Watch(Genesis(), NO_ALARM), Scheduling()))
  {
    var x := Watch(Genesis(), NO_ALARM);
    FollowFour(x, Do(Start(PATIENT_RULE, Gps, false, 0)), SeenAt(Outside, 0), SeenAt(Inside, 0), TickAt(0));
  }

  /** The engine does not accept and keeps no handle, but a timer of its is running. */
  predicate Dropped(x: Watch)
  {
    x.world.engine.Some? && !x.world.engine.value.accepting && x.alarm.held.None? && 0 in x.alarm.timers
  }

  /** The lock holder is about to confirm a due transition. */
  predicate Confirming(x: Watch)
  {
    && x.world.engine.Some? && x.world.engine.value.accepting && x.world.engine.value.pc.Confirm?
    && x.world.engine.value.state.Some?
    && var s := x.world.engine.value.state.value;
       && s.presence == Outside && s.pendingTransition == Some(Inside) && PendingComplete(s)
       && s.pendingDeadline.value <= SECOND && s.enterCooldownUntil.None?
       && 0 in x.alarm.timers && x.alarm.held == Some(0)
       && x.world.past.nextId == 0 && x.world.disk.keys == {}
  }

  lemma ConfirmingRun(x: Watch)
    requires Scheduled(x)
    ensures Confirming(Follow(Follow(x, SeenAt(Inside, SECOND)), TickAt(SECOND)))
  {
    var y := Follow(x, SeenAt(Inside, SECOND));
    assert y.world.engine.value.pc.Check? && y.world.engine.value.state.value.pendingDeadline == Some(SECOND);
    assert y.alarm == x.alarm && y.world.past.nextId == 0 && y.world.disk.keys == {};
  }

  /** Any decision ends with the handle dropped, or with the event committed and the handle about to be. */
  lemma DecidingRun(x: Watch, answer: Option<Presence>)
    requires Confirming(x)
    ensures
      var y := Follow(x, Do(On(Tick(SECOND, answer, 0))));
      && y.world.engine.Some? && 0 in y.alarm.timers
      && (y.world.engine.value.pc.Notify? || (y.world.engine.value.pc.Idle? && y.alarm.held.None?))
  {
  }

  lemma DroppedRun(x: Watch)
    requires x.world.engine.Some? && 0 in x.alarm.timers
    requires x.world.engine.value.pc.Notify? || (x.world.engine.value.pc.Idle? && x.alarm.held.None?)
    ensures Dropped(Follow(Follow(x, Do(On(Announce))), Do(On(Suspend))))
  {
  }

  lemma DroppingRun(x: Watch, answer: Option<Presence>)
    requires Scheduled(x)
    ensures Dropped(FollowAll(x, Dropping(answer)))
  {
    var deciding := Do(On(Tick(SECOND, answer, 0)));
    FollowFive(x, SeenAt(Inside, SECOND), TickAt(SECOND), deciding, Do(On(Announce)), Do(On(Suspend)));
    ConfirmingRun(x);
    var y := Follow(Follow(x, SeenAt(Inside, SECOND)), TickAt(SECOND));
    DecidingRun(y, answer);
    DroppedRun(Follow(y, deciding));
  }

  /** So whatever the re-check answers, or if it does not, a suspended engine that keeps no handle may
      have a timer running. */
  lemma TimersOutliveSuspension(answer: Option<Presence>)
    ensures Dropped(FollowAll(Watch(Genesis(), NO_ALARM), Scheduling() + Dropping(answer)))
  {
    var x := Watch(Genesis(), NO_ALARM);
    SchedulingRun();
    FollowConcat(x, Scheduling(), Dropping(answer));
    DroppingRun(FollowAll(x, Scheduling()), answer);
  }
}
