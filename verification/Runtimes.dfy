/** The engine objects that a program holds, what they share, and what each of them sees. */
module Runtimes {
  import opened Wrappers
  import opened Models
  import opened RuntimeStates
  import opened Machine
  import opened Safety
  import opened Tables
  import opened Database
  import opened Host
  import opened Alarms
  import opened Driving
  import opened TransitionEngine
  import opened Fleets
  import Sites
  import Drain

  /** A linkage together with the engine object that serves it. */
  datatype LiveRuntime = LiveRuntime(resources: Sites.ConfiguredResources, engine: RuleTransitionEngine)

  // ----- whole engine operations keep memory and row together -----

  lemma {:induction false} DriveKeeps(s: System)
    requires InStep(s.engine, s.disk)
    ensures
      var u := Drive(s);
      && InStep(u.engine, u.disk) && u.engine.pc.Idle?
      && u.engine.rule == s.engine.rule && u.engine.accepting == s.engine.accepting && u.raised == s.raised
    decreases |s.supply.tape|, Rank(s.engine, s.supply.last)
  {
    if !s.engine.pc.Idle? {
      TurnProgresses(s);
      TurnKeeps(s);
      DriveKeeps(Turn(s));
      DriveTurn(s);
    }
  }

  lemma TurnKeeps(s: System)
    requires InStep(s.engine, s.disk)
    ensures
      var u := Turn(s);
      && InStep(u.engine, u.disk)
      && u.engine.rule == s.engine.rule && u.engine.accepting == s.engine.accepting && u.raised == s.raised
  {
    StepGood(s.engine, s.disk, NextInput(s));
    Drain.StepAccepts(s.engine, s.disk, NextInput(s));
  }

  /** A recovered engine accepts, remembers its row, and nothing was raised. */
  lemma RecoveredKeeps(s: System)
    requires s.disk.row.Some? ==> Shaped(s.disk.row.value)
    ensures
      var u := Recovered(s);
      && InStep(u.engine, u.disk) && u.engine.accepting == s.engine.rule.enabled && u.raised == s.raised
  {
    var e := s.engine;
    var o := Recover(e.rule, e.source, e.storeCoordinates, s.disk, Reading(s.supply.tape, s.supply.last));
    var r := if !e.rule.enabled || s.disk.row.None? then s else Driving.Read(s);
    DriveKeeps(r.(engine := o.engine, disk := o.disk));
  }

  /** So does any input that an idle engine takes, unless it ends its acceptance. */
  lemma TakenKeeps(s: System, input: Input, r: System)
    requires InStep(s.engine, s.disk) && s.engine.pc.Idle? && !input.Suspend? && !input.Deactivate?
    requires
      var o := Machine.Step(s.engine, s.disk, input);
      r.engine == o.engine && r.disk == o.disk && r.raised == s.raised
    ensures
      var u := Drive(r);
      InStep(u.engine, u.disk) && u.engine.accepting == s.engine.accepting && u.raised == s.raised
  {
    StepGood(s.engine, s.disk, input);
    Drain.StepAccepts(s.engine, s.disk, input);
    DriveKeeps(r);
  }

  lemma ObservedKeeps(s: System, o: Observation)
    requires InStep(s.engine, s.disk) && s.engine.pc.Idle?
    ensures
      var u := Observed(s, o);
      InStep(u.engine, u.disk) && u.engine.accepting == s.engine.accepting && u.raised == s.raised
  {
    var input := Sample(o, Reading(s.supply.tape, s.supply.last));
    var out := Machine.Step(s.engine, s.disk, input);
    var r := if out.effect.Nothing? then s else Driving.Read(s);
    TakenKeeps(s, input, r.(engine := out.engine, disk := out.disk, alarm := Handle(s.engine, s.disk, input, s.alarm)));
  }

  lemma FiredKeeps(s: System, generation: nat)
    requires InStep(s.engine, s.disk) && s.engine.pc.Idle?
    ensures
      var u := Operate(s, Fire(generation));
      InStep(u.engine, u.disk) && u.engine.accepting == s.engine.accepting && u.raised == s.raised
  {
    var input := Fire(generation);
    var out := Machine.Step(s.engine, s.disk, input);
    TakenKeeps(s, input, s.(engine := out.engine, disk := out.disk, alarm := Handle(s.engine, s.disk, input, s.alarm)));
  }

  lemma SuspendedOperation(s: System)
    requires s.engine.pc.Idle?
    ensures Operate(s, Suspend) == s.(engine := s.engine.(accepting := false), alarm := Cancel(s.alarm))
  {
  }

  /** A callback that still reaches a suspended engine only leaves the queue. */
  lemma LeftoverOperation(s: System, generation: nat)
    requires s.engine.pc.Idle? && !s.engine.accepting
    ensures
      Operate(s, Fire(generation)) == s.(alarm := s.alarm.(queued := s.alarm.queued - multiset{generation}))
  {
  }

  lemma DeactivatedOperation(s: System)
    requires s.engine.pc.Idle?
    ensures
      Operate(s, Deactivate) ==
      s.(engine := s.engine.(accepting := false, state := None), disk := s.disk.(row := None), alarm := Cancel(s.alarm))
  {
  }

  // ----- what engines may rely on while others write -----

  /** A database on which engines can be built. */
  predicate Ready(t: Tables, nextId: Id)
  {
    Consistent(t) && (forall r :: r in t.rows ==> Shaped(t.rows[r])) && forall id :: id in t.events ==> id < nextId
  }

  /** Resources, revisions and existing events are as they were. */
  predicate BesideAll(t: Tables, u: Tables)
  {
    && u.(events := t.events, rows := t.rows) == t
    && forall id :: id in t.events ==> id in u.events && u.events[id] == t.events[id]
  }

  lemma BesideReady(t: Tables, u: Tables, rule: Rule, nextId: Id)
    requires Ready(t, nextId) && Beside(t, u, rule.id) && Configured(u, rule)
    requires forall id :: id in u.events ==> id < nextId
    ensures Ready(u, nextId)
  {
    forall r | r in u.rows ensures Shaped(u.rows[r]) {
      if r != rule.id {
        BesideRow(t, u, rule.id, r);
      }
    }
  }

  function RowOf(t: Tables, rule: Id): Option<RuntimeState>
  {
    if rule in t.rows then Some(t.rows[rule]) else None
  }

  lemma BesideRow(t: Tables, u: Tables, rule: Id, other: Id)
    requires Beside(t, u, rule) && other != rule
    ensures RowOf(u, other) == RowOf(t, other)
  {
    assert other in t.rows <==> other in t.rows - {rule};
    assert other in u.rows <==> other in u.rows - {rule};
    if other in t.rows {
      assert (t.rows - {rule})[other] == t.rows[other] && (u.rows - {rule})[other] == u.rows[other];
    }
  }

  lemma BesideAllThen(t: Tables, u: Tables, v: Tables, rule: Id)
    requires BesideAll(t, u) && Beside(u, v, rule)
    ensures BesideAll(t, v)
  {
  }

  lemma BesideAllBoth(t: Tables, u: Tables, v: Tables)
    requires BesideAll(t, u) && BesideAll(u, v)
    ensures BesideAll(t, v)
  {
  }

  lemma BesideLinkage(t: Tables, u: Tables, c: Sites.ConfiguredResources)
    requires BesideAll(t, u) && Drain.Linkage(t, c)
    ensures Drain.Linkage(u, c)
  {
  }

  /** On a ready database a linked rule can be served from its stored row, or from nothing. */
  lemma LinkedIsGrounded(t: Tables, nextId: Id, c: Sites.ConfiguredResources)
    requires Ready(t, nextId) && Drain.Linkage(t, c)
    ensures Grounded(t, c.rule, None) && Grounded(t, c.rule, RowOf(t, c.rule.id))
  {
  }

  // ----- what engines hear -----

  lemma GivenKeeps(s: System, heard: Option<Observation>)
    requires InStep(s.engine, s.disk) && s.engine.pc.Idle?
    ensures
      var u := Given(s, heard);
      InStep(u.engine, u.disk) && u.engine.accepting == s.engine.accepting && u.raised == s.raised
  {
    if heard.Some? {
      ObservedKeeps(s, heard.value);
    }
  }

  lemma BesideDisk(t: Tables, u: Tables, rule: Id, other: Id)
    requires Beside(t, u, rule) && other != rule
    ensures DiskOf(u, other) == DiskOf(t, other)
  {
    BesideRow(t, u, rule, other);
    forall key ensures key in Keys(u, other) <==> key in Keys(t, other) {
      KeysMeaning(t, other, key);
      KeysMeaning(u, other, key);
    }
  }

  // ----- what engines share -----

  datatype Station = Station(db: Connection, clock: Clock, ids: IdFactory)
  {
    /** These runtimes share the database, the clock and the identifiers and nothing else. */
    ghost predicate Separate(held: seq<LiveRuntime>)
    {
      && (forall k :: 0 <= k < |held| ==> Wired(held[k]))
      && (forall j, k :: 0 <= j < k < |held| ==>
            Disjoint(held[j], held[k]) && held[j].resources.rule.id != held[k].resources.rule.id)
    }

    ghost predicate Wired(runtime: LiveRuntime)
    {
      var engine := runtime.engine;
      engine.db == db && engine.clock == clock && engine.ids == ids && engine.rule == runtime.resources.rule
    }

    /** Engines can be built on the database as it is. */
    ghost predicate Usable()
      reads db, ids
    {
      !db.open && Ready(db.committed, ids.next)
    }

    /** The engine accepts, remembers its stored row, and serves a linkage that the database holds. */
    ghost predicate Live(runtime: LiveRuntime)
      reads db, runtime.engine, runtime.engine.scheduler
    {
      && runtime.engine.Timed() && runtime.engine.accepting
      && runtime.engine.state == RowOf(db.committed, runtime.resources.rule.id)
      && Drain.Linkage(db.committed, runtime.resources)
    }

    /** Separate live runtimes on a usable database. */
    ghost predicate AllLive(held: seq<LiveRuntime>)
      reads db, ids, set r | r in held :: r.engine, set r | r in held :: r.engine.scheduler
    {
      Usable() && Separate(held) && forall k :: 0 <= k < |held| ==> Live(held[k])
    }

    /** What each of these engines has alone. */
    ghost function Owned(held: seq<LiveRuntime>): (owned: seq<System>)
      reads set r | r in held :: r.engine, set r | r in held :: r.engine.db,
            set r | r in held :: r.engine.observer, set r | r in held :: r.engine.evaluator
      ensures |owned| == |held|
    {
      seq(|held|,
          k requires 0 <= k < |held|
            reads set r | r in held :: r.engine
            reads set r | r in held :: r.engine.db
            reads set r | r in held :: r.engine.observer
            reads set r | r in held :: r.engine.evaluator
            => held[k].engine.Own())
    }

    /** What these engines have, and what they share. */
    ghost function FleetOf(held: seq<LiveRuntime>): (f: Fleet)
      reads clock, ids, set r | r in held :: r.engine, set r | r in held :: r.engine.db,
            set r | r in held :: r.engine.observer, set r | r in held :: r.engine.evaluator
      ensures |f.owned| == |held|
    {
      Fleet(Owned(held), Stock())
    }

    ghost function Stock(): Shared
      reads clock, ids
    {
      Shared(clock.tape, clock.last, ids.next)
    }

    /** A live engine is one that its own methods accept. */
    lemma LiveIsValid(runtime: LiveRuntime)
      requires Usable() && Wired(runtime) && Live(runtime)
      ensures runtime.engine.Valid()
    {
    }

    /** After an operation of its own, a live engine is live again. */
    lemma StillLive(t: Tables, runtime: LiveRuntime, raised: Option<Detail>)
      requires Wired(runtime) && runtime.engine.Valid() && runtime.engine.accepting
      requires InStep(runtime.engine.Sys(Idle, raised).engine, runtime.engine.Sys(Idle, raised).disk)
      requires Ready(t, ids.next) && Drain.Linkage(t, runtime.resources)
      requires Beside(t, db.committed, runtime.resources.rule.id)
      ensures Usable() && Live(runtime)
    {
      BesideReady(t, db.committed, runtime.resources.rule, ids.next);
      BesideAllThen(t, t, db.committed, runtime.resources.rule.id);
      BesideLinkage(t, db.committed, runtime.resources);
    }

    /** And the engines of other rules have not been disturbed. */
    lemma OthersLive(t: Tables, held: seq<LiveRuntime>, k: nat)
      requires Usable() && Separate(held)
      requires k < |held| && Live(held[k]) && Beside(t, db.committed, held[k].resources.rule.id)
      requires forall i :: 0 <= i < |held| && i != k ==>
                 && held[i].engine.Timed() && held[i].engine.accepting
                 && held[i].engine.state == RowOf(t, held[i].resources.rule.id) && Drain.Linkage(t, held[i].resources)
      ensures AllLive(held)
    {
      BesideAllThen(t, t, db.committed, held[k].resources.rule.id);
      forall i | 0 <= i < |held| && i != k ensures Live(held[i]) {
        BesideRow(t, db.committed, held[k].resources.rule.id, held[i].resources.rule.id);
        BesideLinkage(t, db.committed, held[i].resources);
      }
    }

    lemma AllUntouched(held: seq<LiveRuntime>, owned: seq<System>)
      requires AllLive(held) && owned == Owned(held)
      ensures forall i :: 0 <= i < |held| ==> Untouched(held[i], owned[i]) && WasLive(held[i], db.committed, owned[i])
    {
    }

    /** A new live engine joins live ones that have not been touched. */
    lemma JoinedLive(t: Tables, held: seq<LiveRuntime>, before: seq<System>, joining: LiveRuntime)
      requires Usable() && Separate(held) && Wired(joining) && Live(joining)
      requires Beside(t, db.committed, joining.resources.rule.id) && |before| == |held|
      requires forall i :: 0 <= i < |held| ==>
                 Disjoint(held[i], joining) && held[i].resources.rule.id != joining.resources.rule.id
      requires forall i :: 0 <= i < |held| ==> WasLive(held[i], t, before[i]) && Untouched(held[i], before[i])
      ensures AllLive(held + [joining]) && Owned(held + [joining]) == before + [joining.engine.Own()]
    {
      var (all, k) := (held + [joining], |held|);
      forall i | 0 <= i < k
        ensures Owned(all)[i] == before[i] && all[i].engine.accepting
        ensures all[i].engine.state == RowOf(t, all[i].resources.rule.id)
      {
        BesideDisk(t, db.committed, joining.resources.rule.id, all[i].resources.rule.id);
      }
      OthersLive(t, all, k);
    }

    /** What the engines of other rules have is untouched as well. */
    lemma OthersUntouched(t: Tables, held: seq<LiveRuntime>, k: nat, before: seq<System>)
      requires Usable() && Separate(held)
      requires k < |held| && Live(held[k]) && Beside(t, db.committed, held[k].resources.rule.id)
      requires |before| == |held|
      requires forall i :: 0 <= i < |held| ==> WasLive(held[i], t, before[i])
      requires forall i :: 0 <= i < |held| && i != k ==> Untouched(held[i], before[i])
      ensures AllLive(held) && Owned(held) == before[k := Owned(held)[k]]
    {
      forall i | 0 <= i < |held| && i != k
        ensures Owned(held)[i] == before[i] && held[i].engine.accepting
        ensures held[i].engine.state == RowOf(t, held[i].resources.rule.id)
      {
        BesideDisk(t, db.committed, held[k].resources.rule.id, held[i].resources.rule.id);
      }
      OthersLive(t, held, k);
    }
  }

  ghost predicate Disjoint(a: LiveRuntime, b: LiveRuntime)
  {
    && a.engine != b.engine && a.engine.scheduler != b.engine.scheduler
    && a.engine.observer != b.engine.observer && a.engine.evaluator != b.engine.evaluator
  }

  /** The engine, by itself, has this; what is stored for it may be different by now. */
  ghost predicate Untouched(runtime: LiveRuntime, own: System)
    reads runtime.engine, runtime.engine.scheduler, runtime.engine.observer, runtime.engine.evaluator
  {
    var engine := runtime.engine;
    && engine.Timed()
    && own.engine == Engine(engine.rule, engine.source, engine.storeCoordinates, engine.accepting, engine.state, Idle)
    && own.alarm == engine.alarm && own.notes == engine.observer.notes
    && own.supply == Supply([], 0, engine.evaluator.answers, 0) && own.raised.None?
  }

  /** What a live engine has. */
  predicate WasLive(runtime: LiveRuntime, t: Tables, own: System)
  {
    own.engine.accepting && own.engine.state == own.disk.row && Drain.Linkage(t, runtime.resources)
    && own.disk == DiskOf(t, runtime.resources.rule.id)
  }

  function RulesOf(held: seq<LiveRuntime>): (rules: seq<Rule>)
    ensures |rules| == |held|
  {
    seq(|held|, k requires 0 <= k < |held| => held[k].resources.rule)
  }

  /** The objects of one runtime alone. */
  ghost function Parts(runtime: LiveRuntime): set<object>
  {
    {runtime.engine, runtime.engine.scheduler, runtime.engine.evaluator, runtime.engine.observer}
  }

  /** These objects include all that the runtimes have alone. */
  ghost predicate Within(held: seq<LiveRuntime>, made: set<object>)
  {
    forall r :: r in held ==>
      r.engine in made && r.engine.scheduler in made && r.engine.evaluator in made && r.engine.observer in made
  }

  lemma WithinMore(held: seq<LiveRuntime>, made: set<object>, more: seq<LiveRuntime>)
    requires Within(held, made) && |more| == |held| + 1 && more[..|held|] == held
    ensures Within(more, made + Parts(more[|held|]))
  {
    assert more == held + [more[|held|]];
  }
}
