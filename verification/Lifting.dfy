/** Whole engine operations are runs of the machine, and so is every sequence of operations,
    crashes, rebuilds and maintenance: what holds of every run holds of the engine objects
    that serve a rule one after the other. */
module Lifting {
  import opened Wrappers
  import opened Models
  import opened Machine
  import opened Worlds
  import opened Safety
  import opened Host
  import opened Alarms
  import opened Driving
  import Refinement

  // ----- sequences of events -----

  lemma {:induction false} ForwardConcat(clock: Time, a: seq<Event>, b: seq<Event>)
    requires EventsForward(clock, a) && EventsForward(EventsClock(clock, a), b)
    ensures EventsForward(clock, a + b) && EventsClock(clock, a + b) == EventsClock(EventsClock(clock, a), b)
    decreases |a|
  {
    if a == [] {
      assert a + b == b;
    } else {
      ForwardConcat(EventLater(clock, a[0]), a[1..], b);
      assert (a + b)[0] == a[0] && (a + b)[1..] == a[1..] + b;
    }
  }

  lemma ForwardCons(clock: Time, event: Event, rest: seq<Event>)
    requires clock <= EventLater(clock, event) && EventsForward(EventLater(clock, event), rest)
    ensures EventsForward(clock, [event] + rest)
    ensures EventsClock(clock, [event] + rest) == EventsClock(EventLater(clock, event), rest)
  {
    assert ([event] + rest)[1..] == rest;
  }

  /** The steps among the events: what the world sees. */
  function StepsIn(events: seq<Event>): seq<Step>
  {
    if events == [] then []
    else (if events[0].Do? then [events[0].step] else []) + StepsIn(events[1..])
  }

  lemma {:induction false} WorldSees(x: Watch, events: seq<Event>)
    ensures FollowAll(x, events).world == Run(x.world, StepsIn(events))
    decreases |events|
  {
    if events != [] {
      WorldSees(Follow(x, events[0]), events[1..]);
      if events[0].Do? {
        RunCons(x.world, events[0].step, StepsIn(events[1..]));
      } else {
        assert StepsIn(events) == StepsIn(events[1..]);
      }
    }
  }

  lemma {:induction false} WorldSeesForward(clock: Time, events: seq<Event>)
    requires EventsForward(clock, events)
    ensures Forward(clock, StepsIn(events))
    decreases |events|
  {
    if events != [] {
      WorldSeesForward(EventLater(clock, events[0]), events[1..]);
      if events[0].Do? {
        assert StepsIn(events)[1..] == StepsIn(events[1..]);
      } else {
        assert StepsIn(events) == StepsIn(events[1..]);
      }
    }
  }

  // ----- the picture of an engine object -----

  /** The notifications of this engine are the last ones of the rule. */
  predicate EndsWith(all: seq<Id>, last: seq<Id>)
  {
    |last| <= |all| && all[|all| - |last|..] == last
  }

  /** A world and timers whose engine, stored part, timers and latest notifications are this system's,
      and whose past has drawn no identifier that is still to come. */
  predicate Pictures(x: Watch, s: System)
  {
    && x.world.engine == Some(s.engine) && x.world.disk == s.disk && x.alarm == s.alarm
    && x.world.past.nextId <= s.supply.nextId && EndsWith(x.world.past.notes, s.notes)
  }

  lemma StillEndsWith(all: seq<Id>, last: seq<Id>, id: Id)
    requires EndsWith(all, last)
    ensures EndsWith(all + [id], last + [id])
  {
    assert (all + [id])[|all| - |last|..] == all[|all| - |last|..] + [id];
  }

  // ----- the lock holder's steps -----

  /** The events of a driven system, in order. */
  function Inputs(s: System): seq<Event>
    decreases |s.supply.tape|, Rank(s.engine, s.supply.last)
  {
    if s.engine.pc.Idle? then []
    else
      TurnProgresses(s);
      [Do(On(NextInput(s)))] + Inputs(Turn(s))
  }

  /** A committed event's identifier has been drawn from the supply. */
  lemma DrawsAreNew(s: System)
    ensures
      var effect := Machine.Step(s.engine, s.disk, NextInput(s)).effect;
      (if effect.Committed? then effect.transition.eventId + 1 else s.supply.nextId) <= Turn(s).supply.nextId
  {
  }

  lemma TurnIsEvent(x: Watch, s: System)
    requires Pictures(x, s) && !s.engine.pc.Idle?
    ensures Pictures(Follow(x, Do(On(NextInput(s)))), Turn(s))
  {
    var effect := Machine.Step(s.engine, s.disk, NextInput(s)).effect;
    OnStep(x.world, s.engine, NextInput(s));
    RecordDraws(x.world.past, effect);
    RecordAnnounces(x.world.past, effect);
    DrawsAreNew(s);
    if effect.Announced? {
      StillEndsWith(x.world.past.notes, s.notes, effect.event);
    }
  }

  lemma {:induction false} DriveIsRun(x: Watch, s: System)
    requires Pictures(x, s)
    ensures Pictures(FollowAll(x, Inputs(s)), Drive(s)) && Drive(s).engine.pc.Idle?
    decreases |s.supply.tape|, Rank(s.engine, s.supply.last)
  {
    if !s.engine.pc.Idle? {
      var event := Do(On(NextInput(s)));
      TurnProgresses(s);
      TurnIsEvent(x, s);
      DriveIsRun(Follow(x, event), Turn(s));
      FollowCons(x, event, Inputs(Turn(s)));
    }
  }

  // ----- clocks -----

  /** The readings to come do not run backward. */
  predicate Steady(s: Supply)
  {
    && (s.tape != [] ==> s.last <= s.tape[0])
    && (forall i, j :: 0 <= i < j < |s.tape| ==> s.tape[i] <= s.tape[j])
  }

  function NextReading(s: System): Time
  {
    Reading(s.supply.tape, s.supply.last)
  }

  lemma SteadyRead(s: System)
    requires Steady(s.supply)
    ensures Steady(Driving.Read(s).supply) && NextReading(s) <= NextReading(Driving.Read(s))
  {
    if s.supply.tape != [] {
      assert Rest(s.supply.tape) == s.supply.tape[1..];
    }
  }

  lemma SteadyTurn(s: System)
    requires Steady(s.supply)
    ensures Steady(Turn(s).supply) && NextReading(s) <= NextReading(Turn(s))
  {
    SteadyRead(s);
  }

  /** The events run forward from the clock, and what follows them can go on from there. */
  predicate Ahead(clock: Time, events: seq<Event>, s: System)
  {
    EventsForward(clock, events) && EventsClock(clock, events) <= NextReading(s) && Steady(s.supply)
  }

  lemma {:induction false} DriveIsForward(s: System, clock: Time)
    requires Steady(s.supply) && clock <= NextReading(s)
    ensures Ahead(clock, Inputs(s), Drive(s))
    decreases |s.supply.tape|, Rank(s.engine, s.supply.last)
  {
    if !s.engine.pc.Idle? {
      var event := Do(On(NextInput(s)));
      TurnProgresses(s);
      SteadyTurn(s);
      DriveIsForward(Turn(s), EventLater(clock, event));
      ForwardCons(clock, event, Inputs(Turn(s)));
    }
  }

  /** A first event, and then everything the lock holder does. */
  lemma FirstThenDrive(x: Watch, event: Event, u: System)
    requires Pictures(Follow(x, event), u)
    ensures Pictures(FollowAll(x, [event] + Inputs(u)), Drive(u)) && Drive(u).engine.pc.Idle?
  {
    DriveIsRun(Follow(x, event), u);
    FollowCons(x, event, Inputs(u));
  }

  lemma FirstThenForward(clock: Time, event: Event, u: System)
    requires clock <= EventLater(clock, event) <= NextReading(u) && Steady(u.supply)
    ensures Ahead(clock, [event] + Inputs(u), Drive(u))
  {
    DriveIsForward(u, EventLater(clock, event));
    ForwardCons(clock, event, Inputs(u));
  }

  // ----- whole operations -----

  /** A sample's own step. */
  function Sampling(s: System, o: Observation): System
  {
    var input := Sample(o, NextReading(s));
    var out := Machine.Step(s.engine, s.disk, input);
    var r := if out.effect.Nothing? then s else Driving.Read(s);
    r.(engine := out.engine, disk := out.disk, alarm := Handle(s.engine, s.disk, input, s.alarm))
  }

  function SampleEvents(s: System, o: Observation): seq<Event>
  {
    [Do(On(Sample(o, NextReading(s))))] + Inputs(Sampling(s, o))
  }

  /** Processing a sample is the sample's step followed by the lock holder's. */
  lemma ObservedIsRun(x: Watch, s: System, o: Observation)
    requires Pictures(x, s) && s.engine.pc.Idle?
    ensures Pictures(FollowAll(x, SampleEvents(s, o)), Observed(s, o)) && Observed(s, o).engine.pc.Idle?
  {
    FirstThenDrive(x, Do(On(Sample(o, NextReading(s)))), Sampling(s, o));
  }

  lemma ObservedIsForward(s: System, o: Observation, clock: Time)
    requires Steady(s.supply) && clock <= NextReading(s)
    ensures Ahead(clock, SampleEvents(s, o), Observed(s, o))
  {
    SteadyRead(s);
    FirstThenForward(clock, Do(On(Sample(o, NextReading(s)))), Sampling(s, o));
  }

  /** The own step of a callback, a suspension or a deactivation. */
  function Operating(s: System, input: Input): System
  {
    var out := Machine.Step(s.engine, s.disk, input);
    s.(engine := out.engine, disk := out.disk, alarm := Handle(s.engine, s.disk, input, s.alarm))
  }

  function OperationEvents(s: System, input: Input): seq<Event>
  {
    [Do(On(input))] + Inputs(Operating(s, input))
  }

  predicate Untimed(input: Input)
  {
    input.Fire? || input.Suspend? || input.Deactivate?
  }

  /** Callbacks, suspension and deactivation are their step followed by the lock holder's. */
  lemma OperateIsRun(x: Watch, s: System, input: Input)
    requires Pictures(x, s) && s.engine.pc.Idle? && Untimed(input)
    ensures Pictures(FollowAll(x, OperationEvents(s, input)), Operate(s, input)) && Operate(s, input).engine.pc.Idle?
  {
    FirstThenDrive(x, Do(On(input)), Operating(s, input));
  }

  lemma OperateIsForward(s: System, input: Input, clock: Time)
    requires Steady(s.supply) && clock <= NextReading(s) && Untimed(input)
    ensures Ahead(clock, OperationEvents(s, input), Operate(s, input))
  {
    FirstThenForward(clock, Do(On(input)), Operating(s, input));
  }

  /** The own step of a recovery. */
  function Recovering(s: System): System
  {
    var e := s.engine;
    var o := Recover(e.rule, e.source, e.storeCoordinates, s.disk, NextReading(s));
    var r := if !e.rule.enabled || s.disk.row.None? then s else Driving.Read(s);
    r.(engine := o.engine, disk := o.disk)
  }

  function StartOf(s: System): Step
  {
    Start(s.engine.rule, s.engine.source, s.engine.storeCoordinates, NextReading(s))
  }

  function RecoveryEvents(s: System): seq<Event>
  {
    [Do(StartOf(s))] + Inputs(Recovering(s))
  }

  /** A new engine object over what is stored: no timer of its own, and nothing announced yet. */
  predicate New(s: System)
  {
    s.alarm == NO_ALARM && s.notes == []
  }

  /** The recovery of a new engine is a start followed by the lock holder's steps. */
  lemma RecoveredIsRun(x: Watch, s: System)
    requires Drained(x.world) && x.world.disk == s.disk && x.world.past.nextId <= s.supply.nextId && New(s)
    ensures Pictures(FollowAll(x, RecoveryEvents(s)), Recovered(s)) && Recovered(s).engine.pc.Idle?
  {
    assert Pictures(Follow(x, Do(StartOf(s))), Recovering(s));
    FirstThenDrive(x, Do(StartOf(s)), Recovering(s));
  }

  lemma RecoveredIsForward(s: System, clock: Time)
    requires Steady(s.supply) && clock <= NextReading(s)
    ensures Ahead(clock, RecoveryEvents(s), Recovered(s))
  {
    SteadyRead(s);
    FirstThenForward(clock, Do(StartOf(s)), Recovering(s));
  }

  // ----- sequences of operations on the engines of one rule -----

  /** What a new engine is made of; its re-check may answer anything. */
  datatype Build = Build(rule: Rule, source: Source, storeCoordinates: bool, answers: seq<ReChecked>)

  datatype Call =
    | Sampled(observation: Observation)
    | CalledBack(generation: nat)
    | Suspended
    | Deactivated

  datatype Happening =
    | Called(call: Call)
    | Expiring(handle: nat)                            // a timer of the engine expires
    | Passing(readings: nat, draws: nat)               // others have read the clock and drawn identifiers
    | Killed(call: Call, turns: nat, build: Build)     // the process dies during a call; a new engine recovers
    | Replaced(build: Build)                           // a new engine recovers after a suspension
    | Purging(gone: set<Key>, forget: bool)            // maintenance while no engine accepts
    | Wiping(gone: set<Key>)

  /** The supplies after others have drawn on them. */
  function Passed(p: Supply, readings: nat, draws: nat): Supply
    decreases readings
  {
    if readings == 0 then p.(nextId := p.nextId + draws)
    else Passed(p.(tape := Rest(p.tape), last := Reading(p.tape, p.last)), readings - 1, draws)
  }

  lemma {:induction false} PassedDraws(p: Supply, readings: nat, draws: nat)
    ensures Passed(p, readings, draws).nextId == p.nextId + draws
    decreases readings
  {
    if readings > 0 {
      PassedDraws(p.(tape := Rest(p.tape), last := Reading(p.tape, p.last)), readings - 1, draws);
    }
  }

  lemma {:induction false} PassedSteady(s: System, readings: nat, draws: nat)
    requires Steady(s.supply)
    ensures
      var u := s.(supply := Passed(s.supply, readings, draws));
      Steady(u.supply) && NextReading(s) <= NextReading(u)
    decreases readings
  {
    if readings > 0 {
      SteadyRead(s);
      PassedSteady(Driving.Read(s), readings - 1, draws);
    }
  }

  /** The call's own step. */
  function Begun(s: System, call: Call): System
  {
    match call
    case Sampled(o) => Sampling(s, o)
    case CalledBack(generation) => Operating(s, Fire(generation))
    case Suspended => Operating(s, Suspend)
    case Deactivated => Operating(s, Deactivate)
  }

  function BeginningOf(s: System, call: Call): Event
  {
    match call
    case Sampled(o) => Do(On(Sample(o, NextReading(s))))
    case CalledBack(generation) => Do(On(Fire(generation)))
    case Suspended => Do(On(Suspend))
    case Deactivated => Do(On(Deactivate))
  }

  /** What the engine's method does, as its contract says. */
  function Done(s: System, call: Call): System
  {
    match call
    case Sampled(o) => Observed(s, o)
    case CalledBack(generation) => Operate(s, Fire(generation))
    case Suspended => Operate(s, Suspend)
    case Deactivated => Operate(s, Deactivate)
  }

  lemma DoneIsDriven(s: System, call: Call)
    ensures Done(s, call) == Drive(Begun(s, call))
  {
  }

  /** The lock holder gets this many turns at most. */
  function Cut(s: System, turns: nat): System
    decreases turns
  {
    if turns == 0 || s.engine.pc.Idle? then s else Cut(Turn(s), turns - 1)
  }

  function CutInputs(s: System, turns: nat): seq<Event>
    decreases turns
  {
    if turns == 0 || s.engine.pc.Idle? then [] else [Do(On(NextInput(s)))] + CutInputs(Turn(s), turns - 1)
  }

  /** A new engine object for what is stored. */
  function Successor(s: System, b: Build): System
  {
    Newborn(b.rule, b.source, b.storeCoordinates, s.disk, s.supply.(answers := b.answers))
  }

  predicate Rests(e: Engine)
  {
    !e.accepting && e.pc.Idle?
  }

  function After(s: System, h: Happening): System
  {
    match h
    case Called(call) => Done(s, call)
    case Expiring(handle) => s.(alarm := Expired(s.alarm, handle))
    case Passing(readings, draws) => s.(supply := Passed(s.supply, readings, draws))
    case Killed(call, turns, build) => Recovered(Successor(Cut(Begun(s, call), turns), build))
    case Replaced(build) => if Rests(s.engine) then Recovered(Successor(s, build)) else s
    case Purging(gone, forget) =>
      if Rests(s.engine) then
        s.(disk := Disk(if forget then Forget(s.disk.row) else s.disk.row, s.disk.keys - gone))
      else s
    case Wiping(gone) => if Rests(s.engine) then s.(disk := Disk(None, s.disk.keys - gone)) else s
  }

  function EventsOf(s: System, h: Happening): seq<Event>
  {
    match h
    case Called(call) => [BeginningOf(s, call)] + Inputs(Begun(s, call))
    case Expiring(handle) => [Expire(handle)]
    case Passing(_, _) => []
    case Killed(call, turns, build) =>
      var cut := Cut(Begun(s, call), turns);
      [BeginningOf(s, call)] + CutInputs(Begun(s, call), turns) + ([Do(Crash)] + RecoveryEvents(Successor(cut, build)))
    case Replaced(build) => if Rests(s.engine) then RecoveryEvents(Successor(s, build)) else []
    case Purging(gone, forget) => [Do(Step.Purge(gone, forget))]
    case Wiping(gone) => [Do(Wipe(gone))]
  }

  function Lived(s: System, happenings: seq<Happening>): System
    decreases |happenings|
  {
    if happenings == [] then s else Lived(After(s, happenings[0]), happenings[1..])
  }

  function LifeEvents(s: System, happenings: seq<Happening>): seq<Event>
    decreases |happenings|
  {
    if happenings == [] then [] else EventsOf(s, happenings[0]) + LifeEvents(After(s, happenings[0]), happenings[1..])
  }

  lemma BegunIsEvent(x: Watch, s: System, call: Call)
    requires Pictures(x, s) && s.engine.pc.Idle?
    ensures Pictures(Follow(x, BeginningOf(s, call)), Begun(s, call))
  {
  }

  lemma {:induction false} CutIsRun(x: Watch, s: System, turns: nat)
    requires Pictures(x, s)
    ensures Pictures(FollowAll(x, CutInputs(s, turns)), Cut(s, turns))
    decreases turns
  {
    if turns > 0 && !s.engine.pc.Idle? {
      var event := Do(On(NextInput(s)));
      TurnIsEvent(x, s);
      CutIsRun(Follow(x, event), Turn(s), turns - 1);
      FollowCons(x, event, CutInputs(Turn(s), turns - 1));
    }
  }

  lemma KilledIsRun(x: Watch, s: System, call: Call, turns: nat, build: Build)
    requires Pictures(x, s) && s.engine.pc.Idle?
    ensures
      var h := Killed(call, turns, build);
      Pictures(FollowAll(x, EventsOf(s, h)), After(s, h)) && After(s, h).engine.pc.Idle?
  {
    var (first, begun) := (BeginningOf(s, call), Begun(s, call));
    var (cut, dead) := (Cut(begun, turns), FollowAll(Follow(x, first), CutInputs(begun, turns)));
    var born := Successor(cut, build);
    BegunIsEvent(x, s, call);
    CutIsRun(Follow(x, first), begun, turns);
    FollowCons(x, first, CutInputs(begun, turns));
    RecoveredIsRun(Follow(dead, Do(Crash)), born);
    FollowCons(dead, Do(Crash), RecoveryEvents(born));
    FollowConcat(x, [first] + CutInputs(begun, turns), [Do(Crash)] + RecoveryEvents(born));
  }

  lemma OneEvent(x: Watch, event: Event)
    ensures FollowAll(x, [event]) == Follow(x, event)
  {
    FollowCons(x, event, []);
    assert [event] + [] == [event];
  }

  /** Whatever happens to the engines of a rule is a run. */
  lemma HappeningIsRun(x: Watch, s: System, h: Happening)
    requires Pictures(x, s) && s.engine.pc.Idle?
    ensures Pictures(FollowAll(x, EventsOf(s, h)), After(s, h)) && After(s, h).engine.pc.Idle?
  {
    match h
    case Called(call) =>
      BegunIsEvent(x, s, call);
      FirstThenDrive(x, BeginningOf(s, call), Begun(s, call));
      DoneIsDriven(s, call);
    case Killed(call, turns, build) => KilledIsRun(x, s, call, turns, build);
    case Replaced(build) =>
      if Rests(s.engine) {
        RecoveredIsRun(x, Successor(s, build));
      }
    case Expiring(handle) => OneEvent(x, Expire(handle));
    case Passing(readings, draws) => PassedDraws(s.supply, readings, draws);
    case Purging(gone, forget) => OneEvent(x, Do(Step.Purge(gone, forget)));
    case Wiping(gone) => OneEvent(x, Do(Wipe(gone)));
  }

  lemma {:induction false} LifeIsRun(x: Watch, s: System, happenings: seq<Happening>)
    requires Pictures(x, s) && s.engine.pc.Idle?
    ensures Pictures(FollowAll(x, LifeEvents(s, happenings)), Lived(s, happenings))
    ensures Lived(s, happenings).engine.pc.Idle?
    decreases |happenings|
  {
    if happenings != [] {
      var (first, u) := (EventsOf(s, happenings[0]), After(s, happenings[0]));
      HappeningIsRun(x, s, happenings[0]);
      LifeIsRun(FollowAll(x, first), u, happenings[1..]);
      FollowConcat(x, first, LifeEvents(u, happenings[1..]));
    }
  }

  lemma BegunIsForward(s: System, call: Call, clock: Time)
    requires Steady(s.supply) && clock <= NextReading(s)
    ensures
      var later := EventLater(clock, BeginningOf(s, call));
      clock <= later <= NextReading(Begun(s, call)) && Steady(Begun(s, call).supply)
  {
    SteadyRead(s);
  }

  lemma {:induction false} CutIsForward(s: System, turns: nat, clock: Time)
    requires Steady(s.supply) && clock <= NextReading(s)
    ensures Ahead(clock, CutInputs(s, turns), Cut(s, turns))
    decreases turns
  {
    if turns > 0 && !s.engine.pc.Idle? {
      var event := Do(On(NextInput(s)));
      SteadyTurn(s);
      CutIsForward(Turn(s), turns - 1, EventLater(clock, event));
      ForwardCons(clock, event, CutInputs(Turn(s), turns - 1));
    }
  }

  lemma KilledIsForward(s: System, call: Call, turns: nat, build: Build, clock: Time)
    requires Steady(s.supply) && clock <= NextReading(s)
    ensures var h := Killed(call, turns, build); Ahead(clock, EventsOf(s, h), After(s, h))
  {
    var (first, begun) := (BeginningOf(s, call), Begun(s, call));
    var (inputs, born) := (CutInputs(begun, turns), Successor(Cut(begun, turns), build));
    BegunIsForward(s, call, clock);
    CutIsForward(begun, turns, EventLater(clock, first));
    ForwardCons(clock, first, inputs);
    var now := EventsClock(clock, [first] + inputs);
    RecoveredIsForward(born, now);
    ForwardCons(now, Do(Crash), RecoveryEvents(born));
    ForwardConcat(clock, [first] + inputs, [Do(Crash)] + RecoveryEvents(born));
  }

  lemma HappeningIsForward(s: System, h: Happening, clock: Time)
    requires Steady(s.supply) && clock <= NextReading(s)
    ensures Ahead(clock, EventsOf(s, h), After(s, h))
  {
    match h
    case Called(call) =>
      BegunIsForward(s, call, clock);
      FirstThenForward(clock, BeginningOf(s, call), Begun(s, call));
      DoneIsDriven(s, call);
    case Killed(call, turns, build) => KilledIsForward(s, call, turns, build, clock);
    case Replaced(build) =>
      if Rests(s.engine) {
        RecoveredIsForward(Successor(s, build), clock);
      }
    case Passing(readings, draws) => PassedSteady(s, readings, draws);
    case _ =>
      assert EventsOf(s, h)[1..] == [];
      assert EventsForward(clock, []) && EventsClock(clock, []) == clock;
  }

  lemma {:induction false} LifeIsForward(s: System, happenings: seq<Happening>, clock: Time)
    requires Steady(s.supply) && clock <= NextReading(s)
    ensures Ahead(clock, LifeEvents(s, happenings), Lived(s, happenings))
    decreases |happenings|
  {
    if happenings != [] {
      var (first, u) := (EventsOf(s, happenings[0]), After(s, happenings[0]));
      HappeningIsForward(s, happenings[0], clock);
      LifeIsForward(u, happenings[1..], EventsClock(clock, first));
      ForwardConcat(clock, first, LifeEvents(u, happenings[1..]));
    }
  }

  // ----- from an empty database -----

  /** The first engine of a rule, over nothing. */
  function First(b: Build, supply: Supply): System
  {
    Newborn(b.rule, b.source, b.storeCoordinates, Disk(None, {}), supply.(answers := b.answers))
  }

  /** The engine objects of a rule after anything has happened to them. */
  function Life(b: Build, supply: Supply, happenings: seq<Happening>): System
  {
    Lived(Recovered(First(b, supply)), happenings)
  }

  function EventsOfLife(b: Build, supply: Supply, happenings: seq<Happening>): seq<Event>
  {
    RecoveryEvents(First(b, supply)) + LifeEvents(Recovered(First(b, supply)), happenings)
  }

  /** Every life of a rule's engine objects is a run of its world with its timers; if the readings of
      their clock do not run backward, neither does the run. */
  lemma EveryLifeIsARun(b: Build, supply: Supply, happenings: seq<Happening>)
    ensures
      var events := EventsOfLife(b, supply, happenings);
      && Pictures(FollowAll(Watch(Genesis(), NO_ALARM), events), Life(b, supply, happenings))
      && Life(b, supply, happenings).engine.pc.Idle?
      && (Steady(supply) ==> EventsForward(Reading(supply.tape, supply.last), events))
  {
    var x := Watch(Genesis(), NO_ALARM);
    var s := First(b, supply);
    RecoveredIsRun(x, s);
    LifeIsRun(FollowAll(x, RecoveryEvents(s)), Recovered(s), happenings);
    FollowConcat(x, RecoveryEvents(s), LifeEvents(Recovered(s), happenings));
    if Steady(supply) {
      var clock := NextReading(s);
      RecoveredIsForward(s, clock);
      LifeIsForward(Recovered(s), happenings, EventsClock(clock, RecoveryEvents(s)));
      ForwardConcat(clock, RecoveryEvents(s), LifeEvents(Recovered(s), happenings));
    }
  }

  // ----- what this means for the objects -----

  /** The engine object in service never forgets a pending transition: its scheduler or a waiting
      callback knows of it, or its last due confirmation has kept it. */
  lemma ObjectsRemember(b: Build, supply: Supply, happenings: seq<Happening>)
    ensures
      var s := Life(b, supply, happenings);
      s.engine.accepting && Pending(s.disk) ==> Covered(s.alarm, s.disk.row.value.pendingGeneration)
  {
    EveryLifeIsARun(b, supply, happenings);
    NoLostWakeUp(EventsOfLife(b, supply, happenings));
  }

  /** Its memory is its row, of the right shape. */
  lemma ObjectsKeepStep(b: Build, supply: Supply, happenings: seq<Happening>)
    ensures var s := Life(b, supply, happenings); InStep(s.engine, s.disk)
  {
    var events := EventsOfLife(b, supply, happenings);
    EveryLifeIsARun(b, supply, happenings);
    WorldSees(Watch(Genesis(), NO_ALARM), events);
    Reachable(StepsIn(events));
  }

  /** With a clock that does not run backward, what the objects store is the greedy filter of the
      confirmed changes of presence, across every crash and rebuild. */
  lemma ObjectsJournal(b: Build, supply: Supply, happenings: seq<Happening>)
    requires Steady(supply)
    ensures
      var (s, w) := (Life(b, supply, happenings), Run(Genesis(), StepsIn(EventsOfLife(b, supply, happenings))));
      && w.engine == Some(s.engine) && w.disk == s.disk && EndsWith(w.past.notes, s.notes)
      && Refinement.Kept(w.past.journal, w.past.lifetime) == Refinement.Greedy(w.past.flips)
      && (s.disk.row.Some? ==>
            && w.past.baseline.Some?
            && s.disk.row.value.presence == Refinement.Folded(w.past.baseline.value, w.past.flips))
  {
    var events := EventsOfLife(b, supply, happenings);
    EveryLifeIsARun(b, supply, happenings);
    WorldSees(Watch(Genesis(), NO_ALARM), events);
    WorldSeesForward(Reading(supply.tape, supply.last), events);
    Refinement.JournalRefinement(Reading(supply.tape, supply.last), StepsIn(events));
  }
}
