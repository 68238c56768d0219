/** The manager and the management backend as the program writes them: objects that suspend
    engines, run maintenance and rebuild engines. */
module Management {
  import opened Wrappers
  import opened Models
  import opened Machine
  import opened Tables
  import opened Operations
  import opened Database
  import opened Host
  import opened Alarms
  import opened Driving
  import opened TransitionEngine
  import opened Fleets
  import opened Runtimes
  import opened Listening
  import FleetLives
  import Sites
  import Drain
  import Worlds

  // ----- the manager -----

  class GeofenceJournalManager {
    const station: Station
    const source: Source
    const storeCoordinates: bool

    var runtimes: seq<LiveRuntime>
    var listener: GeofenceTrackerListener?
    var paused: bool
    var home: Home // what Home Assistant reports at present

    /** Exactly the active linkages are served, each by one live engine. */
    ghost predicate Serving()
      reads this, station.db, station.ids, listener,
            set r | r in runtimes :: r.engine, set r | r in runtimes :: r.engine.scheduler
    {
      && !paused && station.AllLive(runtimes) && Covers(runtimes, Sites.ActiveResources(station.db.committed))
      && listener != null && listener.active && listener.station == station && listener.runtimes == runtimes
    }

    constructor (station: Station, source: Source, storeCoordinates: bool, home: Home)
      ensures this.station == station && this.home == home
      ensures this.source == source && this.storeCoordinates == storeCoordinates
      ensures runtimes == [] && listener == null && !paused
    {
      this.station, this.source, this.storeCoordinates, this.home := station, source, storeCoordinates, home;
      runtimes, listener, paused := [], null, false;
    }

    /** The callback of a kept engine's timer: the engine does what its own rule says and raises nothing;
        the others are as they were, and every engine stays live. */
    method DeadlineFires(k: nat, generation: nat)
      requires k < |runtimes| && station.AllLive(runtimes)
      modifies station.db, station.clock, station.ids, runtimes[k].engine,
               runtimes[k].engine.scheduler, runtimes[k].engine.evaluator,
               runtimes[k].engine.observer
      ensures station.AllLive(runtimes)
      ensures Beside(old(station.db.committed), station.db.committed, runtimes[k].resources.rule.id)
      ensures
        var engine := runtimes[k].engine;
        engine.Sys(Idle, None) == Operate(old(engine.Sys(Idle, None)), Input.Fire(generation))
      ensures station.FleetOf(runtimes) == Fired(old(station.FleetOf(runtimes)), k, generation)
    {
      ghost var (t, before, s) := (station.db.committed, station.Owned(runtimes), runtimes[k].engine.Sys(Idle, None));
      assert s == Whole(before[k], station.Stock());
      station.AllUntouched(runtimes, before);
      CallBackApart(k, generation, before);
      station.OthersUntouched(t, runtimes, k, before);
      ghost var u := runtimes[k].engine.Sys(Idle, None);
      assert station.Owned(runtimes)[k] == Apart(u) && station.Stock() == SharedBy(u);
    }

    method CallBackApart(k: nat, generation: nat, ghost before: seq<System>)
      requires k < |runtimes| && station.Usable() && station.Wired(runtimes[k]) && station.Live(runtimes[k])
      requires |before| == |runtimes|
      requires forall i :: 0 <= i < |runtimes| && i != k ==>
                 Untouched(runtimes[i], before[i]) && Disjoint(runtimes[i], runtimes[k])
      modifies station.db, station.clock, station.ids, runtimes[k].engine,
               runtimes[k].engine.scheduler, runtimes[k].engine.evaluator, runtimes[k].engine.observer
      ensures station.Usable() && station.Live(runtimes[k])
      ensures Beside(old(station.db.committed), station.db.committed, runtimes[k].resources.rule.id)
      ensures
        var engine := runtimes[k].engine;
        engine.Sys(Idle, None) == Operate(old(engine.Sys(Idle, None)), Input.Fire(generation))
      ensures forall i :: 0 <= i < |runtimes| && i != k ==> Untouched(runtimes[i], before[i])
    {
      CallBack(runtimes[k], generation);
    }

    method CallBack(runtime: LiveRuntime, generation: nat)
      requires station.Usable() && station.Wired(runtime) && station.Live(runtime)
      modifies station.db, station.clock, station.ids, runtime.engine,
               runtime.engine.scheduler, runtime.engine.evaluator, runtime.engine.observer
      ensures station.Usable() && station.Live(runtime)
      ensures Beside(old(station.db.committed), station.db.committed, runtime.resources.rule.id)
      ensures
        runtime.engine.Sys(Idle, None) == Operate(old(runtime.engine.Sys(Idle, None)), Input.Fire(generation))
    {
      ghost var t := station.db.committed;
      station.LiveIsValid(runtime);
      FiredKeeps(runtime.engine.Sys(Idle, None), generation);
      var raised := runtime.engine.DeadlineCallback(generation);
      station.StillLive(t, runtime, raised);
    }

    /** Invalidate the listener and suspend every engine; none of them keeps a handle. A timer that an
        engine had let go before may still expire, but its callback finds an engine that does not accept. */
    method StopObservations() returns (stopped: seq<LiveRuntime>)
      requires station.Separate(runtimes) && forall k :: 0 <= k < |runtimes| ==> runtimes[k].engine.Timed()
      modifies this`runtimes, this`listener, if listener == null then {} else {listener},
               set r | r in runtimes :: r.engine, set r | r in runtimes :: r.engine.scheduler
      ensures stopped == old(runtimes) && runtimes == [] && listener == null
      ensures old(listener) != null ==> !old(listener).active
      ensures AllSuspended(stopped)
    {
      if listener != null {
        listener.Stop();
      }
      listener := null;
      stopped := runtimes;
      SuspendAll(stopped);
      runtimes := [];
    }

    method SuspendAll(held: seq<LiveRuntime>)
      requires station.Separate(held) && forall k :: 0 <= k < |held| ==> held[k].engine.Timed()
      modifies set r | r in held :: r.engine, set r | r in held :: r.engine.scheduler
      ensures AllSuspended(held)
    {
      var k := 0;
      while k < |held|
        invariant 0 <= k <= |held|
        invariant forall i :: k <= i < |held| ==> held[i].engine.Timed()
        invariant forall i :: 0 <= i < k ==> Suspended(held[i])
      {
        assert held[k] in held;
        SuspendOne(held[k]);
        k := k + 1;
      }
    }

    method SuspendOne(runtime: LiveRuntime)
      requires runtime.engine.Timed()
      modifies runtime.engine, runtime.engine.scheduler
      ensures Suspended(runtime) && runtime.engine.state == old(runtime.engine.state)
    {
      SuspendedOperation(runtime.engine.Sys(Idle, None));
      runtime.engine.Suspend();
    }

    /** The engine does not accept and keeps no handle of a scheduled call. */
    ghost predicate Suspended(runtime: LiveRuntime)
      reads runtime.engine, runtime.engine.scheduler
    {
      runtime.engine.Timed() && !runtime.engine.accepting && runtime.engine.scheduled.None?
    }

    /** Deactivate the stopped engines whose linkage is no longer active. */
    method RetireGone(stopped: seq<LiveRuntime>, resources: seq<Sites.ConfiguredResources>)
      requires station.Usable() && AllSuspended(stopped)
      requires AllReferenced(stopped, station.db.committed)
      modifies station.db, set r | r in stopped :: r.engine, set r | r in stopped :: r.engine.scheduler
      ensures station.Usable() && AllSuspended(stopped)
      ensures
        station.db.committed ==
        WithoutRows(old(station.db.committed), Unserved(stopped, resources, |stopped|))
    {
      var k := 0;
      while k < |stopped|
        invariant 0 <= k <= |stopped| && station.Usable() && AllSuspended(stopped)
        invariant
          station.db.committed == WithoutRows(old(station.db.committed), Unserved(stopped, resources, k))
      {
        RetireUnserved(stopped, k, resources);
        UnservedMore(stopped, resources, old(station.db.committed), k);
        k := k + 1;
      }
    }

    ghost predicate AllSuspended(held: seq<LiveRuntime>)
      reads set r | r in held :: r.engine, set r | r in held :: r.engine.scheduler
    {
      station.Separate(held) && forall k :: 0 <= k < |held| ==> Suspended(held[k])
    }

    method RetireUnserved(stopped: seq<LiveRuntime>, k: nat, resources: seq<Sites.ConfiguredResources>)
      requires station.Usable() && AllSuspended(stopped)
      requires k < |stopped| && Referenced(station.db.committed, stopped[k].resources.rule)
      modifies station.db, stopped[k].engine, stopped[k].engine.scheduler
      ensures station.Usable() && AllSuspended(stopped)
      ensures
        var (t, rule) := (old(station.db.committed), stopped[k].resources.rule.id);
        station.db.committed == if Serves(resources, rule) then t else RowDeleted(t, rule)
    {
      if !Serves(resources, stopped[k].resources.rule.id) {
        RetireOne(stopped[k]);
      }
    }

    method RetireOne(runtime: LiveRuntime)
      requires station.Usable() && station.Wired(runtime)
      requires Suspended(runtime) && Referenced(station.db.committed, runtime.resources.rule)
      modifies station.db, runtime.engine, runtime.engine.scheduler
      ensures station.Usable() && Suspended(runtime)
      ensures station.db.committed == RowDeleted(old(station.db.committed), runtime.resources.rule.id)
    {
      ghost var before := station.db.committed;
      DeactivatedOperation(runtime.engine.Sys(Idle, None));
      runtime.engine.Deactivate();
      BesideReady(before, station.db.committed, runtime.resources.rule, station.ids.next);
    }

    /** Replace the listener and the engines by new ones for the active linkages. */
    method RefreshResources()
      requires station.Usable() && AllReferenced(runtimes, station.db.committed)
      requires station.Separate(runtimes) && forall k :: 0 <= k < |runtimes| ==> runtimes[k].engine.Timed()
      modifies this`runtimes, this`listener, if listener == null then {} else {listener},
               station.db, station.clock, station.ids,
               set r | r in runtimes :: r.engine, set r | r in runtimes :: r.engine.scheduler
      ensures paused ==> runtimes == [] && listener == null && station.db.committed == old(station.db.committed)
      ensures !paused ==> Serving() && BesideAll(old(station.db.committed), station.db.committed)
      ensures !paused ==> Anew(old(station.db.committed), old(station.Stock()))
      ensures AllSuspended(old(runtimes))
    {
      var stopped := StopObservations();
      if !paused {
        Replace(stopped);
      }
    }

    method Replace(stopped: seq<LiveRuntime>)
      requires station.Usable() && !paused
      requires AllSuspended(stopped) && AllReferenced(stopped, station.db.committed)
      modifies this`runtimes, this`listener, station.db, station.clock, station.ids,
               set r | r in stopped :: r.engine, set r | r in stopped :: r.engine.scheduler
      ensures Serving() && BesideAll(old(station.db.committed), station.db.committed) && AllSuspended(stopped)
      ensures Anew(old(station.db.committed), old(station.Stock()))
    {
      ghost var before := station.db.committed;
      var resources := ListActiveResources();
      RetireGone(stopped, resources);
      SameActive(before, station.db.committed);
      BuildAfter(resources, stopped, before);
    }

    method BuildAfter(
      resources: seq<Sites.ConfiguredResources>, ghost stopped: seq<LiveRuntime>, ghost before: Tables)
      requires station.Usable() && !paused && AllSuspended(stopped)
      requires Enumerates(resources, Sites.ActiveResources(station.db.committed))
      requires station.db.committed == WithoutRows(before, Unserved(stopped, resources, |stopped|))
      modifies this`runtimes, this`listener, station.db, station.clock, station.ids
      ensures Serving() && AllSuspended(stopped) && BesideAll(before, station.db.committed)
      ensures Anew(before, old(station.Stock()))
    {
      ghost var (retired, p) := (station.db.committed, station.Stock());
      BuildResources(resources);
      BesideAllBoth(before, retired, station.db.committed);
      AnewBefore(stopped, resources, before, p);
    }

    lemma AnewBefore(
      stopped: seq<LiveRuntime>, resources: seq<Sites.ConfiguredResources>, t: Tables, p: Shared)
      requires Anew(WithoutRows(t, Unserved(stopped, resources, |stopped|)), p)
      requires |runtimes| == |resources| && Built(runtimes, resources)
      ensures Anew(t, p)
    {
      var (u, rules) := (WithoutRows(t, Unserved(stopped, resources, |stopped|)), RulesOf(runtimes));
      forall k | 0 <= k < |rules| ensures DiskOf(t, rules[k].id) == DiskOf(u, rules[k].id) {
        ServedKeepsDisk(stopped, resources, t, k);
      }
      SameRecovery(rules, |rules|, Provided(), t, u, p);
    }

    /** Enter the maintenance scope. */
    method Pause()
      requires station.Separate(runtimes) && forall k :: 0 <= k < |runtimes| ==> runtimes[k].engine.Timed()
      modifies this`paused, this`runtimes, this`listener, if listener == null then {} else {listener},
               set r | r in runtimes :: r.engine, set r | r in runtimes :: r.engine.scheduler
      ensures paused && runtimes == [] && listener == null
      ensures old(listener) != null ==> !old(listener).active
      ensures AllSuspended(old(runtimes))
    {
      paused := true;
      var stopped := StopObservations();
    }

    /** Leave the maintenance scope, however it ended. */
    method Resume()
      requires station.Usable() && paused
      modifies this`paused, this`runtimes, this`listener, station.db, station.clock, station.ids
      ensures Serving() && BesideAll(old(station.db.committed), station.db.committed)
      ensures fresh(listener) && forall r :: r in runtimes ==> fresh(r.engine)
      ensures Anew(old(station.db.committed), old(station.Stock()))
    {
      paused := false;
      var resources := ListActiveResources();
      BuildResources(resources);
    }

    /** What the engines are built with at present. */
    ghost function Provided(): Setting
      reads this`home
    {
      Setting(source, storeCoordinates, home)
    }

    /** The engines are what a rebuild on these tables and with these supplies comes to. */
    ghost predicate Anew(t: Tables, p: Shared)
      reads this, station.clock, station.ids, set r | r in runtimes :: r.engine,
            set r | r in runtimes :: r.engine.db, set r | r in runtimes :: r.engine.observer,
            set r | r in runtimes :: r.engine.evaluator
    {
      station.FleetOf(runtimes) == Rebuilt(RulesOf(runtimes), Provided(), t, p)
    }

    /** So each of them continues, in clock order, the run that has led to these tables. */
    lemma AnewLeads(t: Tables, p: Shared, k: nat, x: Watch, clock: Time)
      requires Anew(t, p) && station.Separate(runtimes) && k < |runtimes|
      requires Worlds.Drained(x.world) && x.world.disk == DiskOf(t, runtimes[k].resources.rule.id)
      requires x.world.past.nextId <= p.nextId
      ensures
        FleetLives.CanLeadTo(x, clock, FleetLives.SupplyOf(p), runtimes[k].engine.Sys(Idle, None))
    {
      FleetLives.RebuiltLeads(RulesOf(runtimes), Provided(), t, p, k, x, clock);
      assert FleetLives.Member(station.FleetOf(runtimes), k) == runtimes[k].engine.Sys(Idle, None);
    }

    /** The active linkages in the order of their rules. */
    method ListActiveResources() returns (resources: seq<Sites.ConfiguredResources>)
      requires Consistent(station.db.committed)
      ensures Enumerates(resources, Sites.ActiveResources(station.db.committed))
      ensures ListsSwitchedOn(resources, station.db.committed)
    {
      var active := Sites.ActiveResources(station.db.committed);
      Drain.ActiveIds(station.db.committed);
      var rules := Sorted(active.Keys);
      resources := seq(|rules|, k requires 0 <= k < |rules| && rules[k] in active => active[rules[k]]);
      InRuleOrder(rules, active, resources);
      ListedExactly(station.db.committed, resources);
    }

    /** A new engine object with a scheduler, a re-check and an observer of its own. */
    method NewEngine(c: Sites.ConfiguredResources) returns (runtime: LiveRuntime)
      requires station.Usable() && Drain.Linkage(station.db.committed, c)
      ensures runtime.resources == c && fresh(Parts(runtime)) && station.Wired(runtime)
      ensures runtime.engine.Valid() && runtime.engine.accepting && runtime.engine.state.None?
      ensures runtime.engine.source == source && runtime.engine.storeCoordinates == storeCoordinates
      ensures runtime.engine.alarm == NO_ALARM && runtime.engine.observer.notes == []
      ensures runtime.engine.evaluator.answers == ReChecks(home, c.rule.id)
    {
      LinkedIsGrounded(station.db.committed, station.ids.next, c);
      var scheduler := new Scheduler();
      var evaluator := new Evaluator(ReChecks(home, c.rule.id));
      var observer := new Observer();
      var engine := new RuleTransitionEngine(
        c.rule, source, storeCoordinates, station.db, station.clock, scheduler, station.ids, evaluator, observer);
      runtime := LiveRuntime(c, engine);
    }

    /** Build an engine for one linkage and recover it. */
    method BuildOne(c: Sites.ConfiguredResources) returns (runtime: LiveRuntime)
      requires station.Usable() && Drain.Linkage(station.db.committed, c)
      modifies station.db, station.clock, station.ids
      ensures runtime.resources == c && fresh(Parts(runtime)) && station.Wired(runtime)
      ensures station.Usable() && station.Live(runtime)
      ensures Beside(old(station.db.committed), station.db.committed, c.rule.id)
      ensures
        var d := DiskOf(old(station.db.committed), c.rule.id);
        runtime.engine.Sys(Idle, None) == Recovered(NewbornOf(c.rule, Provided(), d, old(station.Stock())))
    {
      runtime := NewEngine(c);
      ghost var (before, s) := (station.db.committed, runtime.engine.Sys(Idle, None));
      RecoveredKeeps(s);
      var raised := runtime.engine.Recover();
      station.StillLive(before, runtime, raised);
      assert s == NewbornOf(c.rule, Provided(), DiskOf(before, c.rule.id), old(station.Stock()));
    }

    /** Recover a new engine for each linkage, then install a listener for them, which hands each engine
        the present state of its tracker. */
    method BuildResources(resources: seq<Sites.ConfiguredResources>)
      requires station.Usable() && !paused
      requires Enumerates(resources, Sites.ActiveResources(station.db.committed))
      modifies this`runtimes, this`listener, station.db, station.clock, station.ids
      ensures Serving() && fresh(listener) && Anew(old(station.db.committed), old(station.Stock()))
      ensures |runtimes| == |resources| && forall k :: 0 <= k < |resources| ==> runtimes[k].resources == resources[k]
      ensures forall r :: r in runtimes ==> fresh(r.engine)
      ensures BesideAll(old(station.db.committed), station.db.committed)
    {
      ghost var (t, p) := (station.db.committed, station.Stock());
      EnumeratedIsPlanned(resources, t);
      var built, made := BuildAll(resources);
      Serve(built, resources, t, p, made);
    }

    method Serve(
      built: seq<LiveRuntime>, ghost resources: seq<Sites.ConfiguredResources>, ghost t: Tables,
      ghost p: Shared, ghost made: set<object>)
      requires !paused && Underway(built, resources, t, p) && |built| == |resources| && Within(built, made)
      requires Enumerates(resources, Sites.ActiveResources(t)) && this !in made
      modifies this`runtimes, this`listener, station.db, station.clock, station.ids, made
      ensures Serving() && runtimes == built && fresh(listener) && Anew(t, p)
      ensures BesideAll(t, station.db.committed)
    {
      ghost var u := station.db.committed;
      SameRules(built, resources);
      InstallAnew(built, t, p, made);
      BesideAllBoth(t, u, station.db.committed);
      CoversBuilt(resources, built, t, station.db.committed);
    }

    method InstallAnew(built: seq<LiveRuntime>, ghost t: Tables, ghost p: Shared, ghost made: set<object>)
      requires station.AllLive(built) && Within(built, made) && this !in made
      requires station.FleetOf(built) == Recovering(RulesOf(built), |built|, Provided(), t, p)
      modifies this`runtimes, this`listener, station.db, station.clock, station.ids, made
      ensures station.AllLive(built) && runtimes == built && fresh(listener)
      ensures listener.active && listener.station == station && listener.runtimes == built
      ensures Anew(t, p) && BesideAll(old(station.db.committed), station.db.committed)
    {
      RebuiltIs(RulesOf(built), Provided(), t, p);
      Install(built, made);
    }

    method Install(built: seq<LiveRuntime>, ghost made: set<object>)
      requires station.AllLive(built) && Within(built, made) && this !in made
      modifies this`runtimes, this`listener, station.db, station.clock, station.ids, made
      ensures station.AllLive(built) && runtimes == built && fresh(listener)
      ensures listener.active && listener.station == station && listener.runtimes == built
      ensures station.FleetOf(built) == UpToDate(RulesOf(built), home, old(station.FleetOf(built)))
      ensures BesideAll(old(station.db.committed), station.db.committed)
    {
      Listen(built);
      listener.Start(home);
    }

    method Listen(built: seq<LiveRuntime>)
      requires station.AllLive(built)
      modifies this`runtimes, this`listener
      ensures station.AllLive(built) && station.FleetOf(built) == old(station.FleetOf(built))
      ensures runtimes == built && fresh(listener) && !listener.active
      ensures listener.station == station && listener.runtimes == built
    {
      runtimes := built;
      listener := new GeofenceTrackerListener(station, built);
    }

    /** The engines built so far are live, each one recovered from what these tables held for its rule;
        the rules still to be built are as they were in the tables. */
    ghost predicate Underway(
      built: seq<LiveRuntime>, resources: seq<Sites.ConfiguredResources>, t: Tables, p: Shared)
      reads this`home, station.db, station.clock, station.ids, set r | r in built :: r.engine,
            set r | r in built :: r.engine.scheduler, set r | r in built :: r.engine.db,
            set r | r in built :: r.engine.observer, set r | r in built :: r.engine.evaluator
    {
      && station.AllLive(built) && Built(built, resources) && BesideAll(t, station.db.committed)
      && station.FleetOf(built) == Recovering(RulesIn(resources), |built|, Provided(), t, p)
      && Unbuilt(resources, |built|, t, station.db.committed)
    }

    method BuildAll(resources: seq<Sites.ConfiguredResources>)
      returns (built: seq<LiveRuntime>, ghost made: set<object>)
      requires station.Usable()
      requires Planned(resources, station.db.committed)
      modifies station.db, station.clock, station.ids
      ensures Underway(built, resources, old(station.db.committed), old(station.Stock()))
      ensures |built| == |resources|
      ensures fresh(made) && Within(built, made)
    {
      ghost var (t, p) := (station.db.committed, station.Stock());
      built, made := [], {};
      NothingBuilt(resources);
      while |built| < |resources|
        invariant Underway(built, resources, t, p)
        invariant fresh(made) && Within(built, made)
      {
        var extended := BuildMore(built, resources, t, p);
        WithinMore(built, made, extended);
        made := made + Parts(extended[|built|]);
        built := extended;
      }
    }

    lemma NothingBuilt(resources: seq<Sites.ConfiguredResources>)
      requires station.Usable()
      ensures Underway([], resources, station.db.committed, station.Stock())
    {
    }

    method BuildMore(
      built: seq<LiveRuntime>, resources: seq<Sites.ConfiguredResources>, ghost t: Tables, ghost p: Shared)
      returns (extended: seq<LiveRuntime>)
      requires Underway(built, resources, t, p) && |built| < |resources| && Planned(resources, t)
      modifies station.db, station.clock, station.ids
      ensures Underway(extended, resources, t, p)
      ensures |extended| == |built| + 1 && extended[..|built|] == built && fresh(Parts(extended[|built|]))
    {
      var c := resources[|built|];
      ghost var before := station.db.committed;
      PlannedNext(resources, built, t, before);
      UnbuiltNext(resources, |built|, t, before);
      extended := BuildNext(built, RulesIn(resources), c, t, p);
      UnderwayMore(built, extended, resources, t, p, before);
    }

    lemma UnderwayMore(
      built: seq<LiveRuntime>, extended: seq<LiveRuntime>, resources: seq<Sites.ConfiguredResources>,
      t: Tables, p: Shared, before: Tables)
      requires Built(built, resources) && |built| < |resources| && Planned(resources, t)
      requires |extended| == |built| + 1 && extended[..|built|] == built
      requires extended[|built|].resources == resources[|built|]
      requires BesideAll(t, before) && Beside(before, station.db.committed, resources[|built|].rule.id)
      requires Unbuilt(resources, |built|, t, before) && station.AllLive(extended)
      requires station.FleetOf(extended) == Recovering(RulesIn(resources), |extended|, Provided(), t, p)
      ensures Underway(extended, resources, t, p)
    {
      BesideAllThen(t, before, station.db.committed, resources[|built|].rule.id);
      UnbuiltMore(resources, |built|, t, before, station.db.committed);
      BuiltMore(built, extended, resources);
    }

    method BuildNext(
      built: seq<LiveRuntime>, ghost rules: seq<Rule>, c: Sites.ConfiguredResources, ghost t: Tables, ghost p: Shared)
      returns (extended: seq<LiveRuntime>)
      requires station.AllLive(built) && Drain.Linkage(station.db.committed, c)
      requires forall k :: 0 <= k < |built| ==> built[k].resources.rule.id != c.rule.id
      requires |built| < |rules| && rules[|built|] == c.rule
      requires DiskOf(station.db.committed, c.rule.id) == DiskOf(t, c.rule.id)
      requires station.FleetOf(built) == Recovering(rules, |built|, Provided(), t, p)
      modifies station.db, station.clock, station.ids
      ensures |extended| == |built| + 1 && extended[..|built|] == built && extended[|built|].resources == c
      ensures fresh(Parts(extended[|built|]))
      ensures station.AllLive(extended) && Beside(old(station.db.committed), station.db.committed, c.rule.id)
      ensures station.FleetOf(extended) == Recovering(rules, |extended|, Provided(), t, p)
    {
      ghost var (before, owned) := (station.db.committed, station.Owned(built));
      station.AllUntouched(built, owned);
      RecoveringMore(rules, |built|, Provided(), t, p);
      var runtime := BuildApart(built, owned, c);
      extended := built + [runtime];
      station.JoinedLive(before, built, owned, runtime);
    }

    /** The engines that are there already are not touched. */
    method BuildApart(ghost built: seq<LiveRuntime>, ghost owned: seq<System>, c: Sites.ConfiguredResources)
      returns (runtime: LiveRuntime)
      requires station.Usable() && Drain.Linkage(station.db.committed, c) && |owned| == |built|
      requires forall i :: 0 <= i < |built| ==> Untouched(built[i], owned[i])
      modifies station.db, station.clock, station.ids
      ensures runtime.resources == c && fresh(Parts(runtime)) && station.Wired(runtime)
      ensures station.Usable() && station.Live(runtime)
      ensures Beside(old(station.db.committed), station.db.committed, c.rule.id)
      ensures
        var d := DiskOf(old(station.db.committed), c.rule.id);
        var s := Recovered(NewbornOf(c.rule, Provided(), d, old(station.Stock())));
        runtime.engine.Own() == Apart(s) && station.Stock() == SharedBy(s)
      ensures forall i :: 0 <= i < |built| ==> Untouched(built[i], owned[i]) && Disjoint(built[i], runtime)
    {
      runtime := BuildOne(c);
    }
  }

  // ----- management operations -----

  class SQLiteManagementBackend {
    const manager: GeofenceJournalManager

    constructor (manager: GeofenceJournalManager)
      ensures this.manager == manager
    {
      this.manager := manager;
    }

    /** The engines have been built anew on these tables with these supplies; resources, revisions and
        events are still those of the tables. */
    ghost predicate Since(t: Tables, p: Shared)
      reads manager, manager.station.db, manager.station.clock, manager.station.ids,
            set r | r in manager.runtimes :: r.engine, set r | r in manager.runtimes :: r.engine.db,
            set r | r in manager.runtimes :: r.engine.observer, set r | r in manager.runtimes :: r.engine.evaluator
    {
      BesideAll(t, manager.station.db.committed) && manager.Anew(t, p)
    }

    /** Count old events, or purge them while every engine is suspended; then serve again. */
    method PurgeEvents(q: PurgeRequest, journal: Id) returns (r: Result<PurgeResult, StorageError>)
      requires manager.Serving() && q.journal == Some(journal)
      modifies manager`paused, manager`runtimes, manager`listener, manager.listener,
               manager.station.db, manager.station.clock, manager.station.ids,
               set r | r in manager.runtimes :: r.engine, set r | r in manager.runtimes :: r.engine.scheduler
      ensures manager.Serving()
      ensures r == PurgeAnswer(old(manager.station.db.committed), q, journal)
      ensures
        var t := old(manager.station.db.committed);
        if journal !in t.journals then r == Failure(MissingReference(JournalReference, journal))
        else ReportsPurge(r, q, |t.events|, |t.revisions|, Left(t, q))
      ensures
        var (t, u) := (old(manager.station.db.committed), manager.station.db.committed);
        if Drains(t, q, journal) then Since(AfterPurge(t, q), old(manager.station.Stock())) else u == t
      ensures Drains(old(manager.station.db.committed), q, journal) ==> manager.AllSuspended(old(manager.runtimes))
    {
      if journal !in manager.station.db.committed.journals {
        return Failure(MissingReference(JournalReference, journal));
      }
      PurgeReported(manager.station.db.committed, q);
      if q.dryRun {
        r := manager.station.db.PurgeEvents(q);
      } else {
        r := PurgeDrained(q);
      }
    }

    method PurgeDrained(q: PurgeRequest) returns (r: Result<PurgeResult, StorageError>)
      requires manager.Serving() && !q.dryRun
      modifies manager`paused, manager`runtimes, manager`listener, manager.listener,
               manager.station.db, manager.station.clock, manager.station.ids,
               set r | r in manager.runtimes :: r.engine, set r | r in manager.runtimes :: r.engine.scheduler
      ensures manager.Serving() && manager.AllSuspended(old(manager.runtimes))
      ensures
        var t := old(manager.station.db.committed);
        && Since(AfterPurge(t, q), old(manager.station.Stock()))
        && r == PurgeResultOf(t, q)
    {
      ghost var held := manager.runtimes;
      manager.Pause();
      r := PurgeAndResume(q, held);
    }

    /** Empty the database while every engine is suspended; afterwards there is nothing left to serve. */
    method ResetDatabase(confirmation: string) returns (r: Result<ResetResult, StorageError>)
      requires manager.Serving()
      modifies manager`paused, manager`runtimes, manager`listener, manager.listener,
               manager.station.db, manager.station.clock, manager.station.ids,
               set r | r in manager.runtimes :: r.engine, set r | r in manager.runtimes :: r.engine.scheduler
      ensures manager.Serving() && manager.AllSuspended(old(manager.runtimes))
      ensures
        var (t, u) := (old(manager.station.db.committed), manager.station.db.committed);
        if Resets(t, confirmation) then manager.runtimes == [] && u == Emptied()
        else Since(t, old(manager.station.Stock()))
      ensures ResetReported(r, old(manager.station.db.committed), confirmation)
    {
      ghost var held := manager.runtimes;
      manager.Pause();
      r := ResetAndResume(confirmation, held);
    }

    method ResetAndResume(confirmation: string, ghost held: seq<LiveRuntime>)
      returns (r: Result<ResetResult, StorageError>)
      requires manager.station.Usable() && manager.paused && manager.AllSuspended(held)
      modifies manager`paused, manager`runtimes, manager`listener,
               manager.station.db, manager.station.clock, manager.station.ids
      ensures manager.Serving() && manager.AllSuspended(held)
      ensures
        var (t, u) := (old(manager.station.db.committed), manager.station.db.committed);
        if Resets(t, confirmation) then manager.runtimes == [] && u == Emptied()
        else Since(t, old(manager.station.Stock()))
      ensures ResetReported(r, old(manager.station.db.committed), confirmation)
    {
      ghost var t := manager.station.db.committed;
      r := ResetPaused(confirmation, held);
      ResumeBeside(held);
      if Resets(t, confirmation) {
        NobodyServed();
      }
    }

    method ResetPaused(confirmation: string, ghost held: seq<LiveRuntime>)
      returns (r: Result<ResetResult, StorageError>)
      requires manager.station.Usable() && manager.paused && manager.AllSuspended(held)
      modifies manager.station.db
      ensures manager.station.Usable() && manager.paused && manager.AllSuspended(held)
      ensures manager.station.Stock() == old(manager.station.Stock())
      ensures
        var t := old(manager.station.db.committed);
        manager.station.db.committed == if Resets(t, confirmation) then Emptied() else t
      ensures ResetReported(r, old(manager.station.db.committed), confirmation)
    {
      r := manager.station.db.ResetDatabase(confirmation);
    }

    /** The engines of before stay suspended. */
    method ResumeBeside(ghost held: seq<LiveRuntime>)
      requires manager.station.Usable() && manager.paused && manager.AllSuspended(held)
      modifies manager`paused, manager`runtimes, manager`listener,
               manager.station.db, manager.station.clock, manager.station.ids
      ensures manager.Serving() && manager.AllSuspended(held)
      ensures Since(old(manager.station.db.committed), old(manager.station.Stock()))
    {
      manager.Resume();
    }

    lemma NobodyServed()
      requires manager.Serving() && BesideAll(Emptied(), manager.station.db.committed)
      ensures
        var u := manager.station.db.committed;
        manager.runtimes == [] && u == Emptied()
    {
      NothingLeft(manager.station.db.committed, manager.station.ids.next);
      NobodyLeft(manager.runtimes, manager.station.db.committed);
    }

    /** The body of the maintenance scope, and its end. */
    method PurgeAndResume(q: PurgeRequest, ghost held: seq<LiveRuntime>)
      returns (r: Result<PurgeResult, StorageError>)
      requires manager.station.Usable() && manager.paused && !q.dryRun && manager.AllSuspended(held)
      modifies manager`paused, manager`runtimes, manager`listener,
               manager.station.db, manager.station.clock, manager.station.ids
      ensures manager.Serving() && manager.AllSuspended(held)
      ensures
        var t := old(manager.station.db.committed);
        && Since(AfterPurge(t, q), old(manager.station.Stock()))
        && r == PurgeResultOf(t, q)
    {
      PurgedReady(manager.station.db.committed, manager.station.ids.next, q.before, q.journal);
      r := manager.station.db.PurgeEvents(q);
      ResumeBeside(held);
    }
  }

  function AfterPurge(t: Tables, q: PurgeRequest): Tables
  {
    if q.confirm then Apply(t, Purge(q.before, q.journal)) else t
  }

  /** The phrase and the schema version allow a reset. */
  predicate Resets(t: Tables, confirmation: string)
  {
    confirmation == RESET_CONFIRMATION_PHRASE && t.versions == [SCHEMA_VERSION]
  }

  /** A reset reports how many rows each table had; a wrong phrase is refused before a wrong version. */
  predicate ResetReported(r: Result<ResetResult, StorageError>, t: Tables, confirmation: string)
  {
    if confirmation != "DELETE ALL GEOFENCE JOURNAL DATA" then r == Failure(ResetUnconfirmed)
    else if t.versions != [1] then r.Failure? && r.error.SchemaError?
    else r == Success(ResetResult(
      |t.trackers|, |t.places|, |t.journals|, |t.rules|, |t.events|, |t.revisions|, |t.rows|, 1))
  }

  /** Without resources there is nothing to journal. */
  lemma NothingLeft(u: Tables, nextId: Id)
    requires Ready(u, nextId) && BesideAll(Emptied(), u)
    ensures u == Emptied()
  {
  }

  lemma NobodyLeft(held: seq<LiveRuntime>, u: Tables)
    requires BesideAll(Emptied(), u)
    requires forall k :: 0 <= k < |held| ==> Drain.Linkage(u, held[k].resources)
    ensures held == []
  {
    assert |held| > 0 ==> held[0].resources.rule.id in u.rules;
  }

  /** Only a purge of an existing journal that is no dry run enters the maintenance scope. */
  predicate Drains(t: Tables, q: PurgeRequest, journal: Id)
  {
    journal in t.journals && !q.dryRun
  }

  function PurgeAnswer(t: Tables, q: PurgeRequest, journal: Id): Result<PurgeResult, StorageError>
  {
    if journal !in t.journals then Failure(MissingReference(JournalReference, journal)) else PurgeResultOf(t, q)
  }

  lemma PurgedReady(t: Tables, nextId: Id, before: Time, journal: Option<Id>)
    requires Ready(t, nextId)
    ensures Ready(Apply(t, Purge(before, journal)), nextId)
  {
    PurgedConsistent(t, Selected(t, before, journal));
  }

  /** The rules of the first k engines that have no linkage any more. */
  function Unserved(held: seq<LiveRuntime>, resources: seq<Sites.ConfiguredResources>, k: nat): set<Id>
    requires k <= |held|
  {
    set i | 0 <= i < k && !Serves(resources, held[i].resources.rule.id) :: held[i].resources.rule.id
  }

  function WithoutRows(t: Tables, gone: set<Id>): Tables
  {
    t.(rows := t.rows - gone)
  }

  lemma UnservedMore(held: seq<LiveRuntime>, resources: seq<Sites.ConfiguredResources>, t: Tables, k: nat)
    requires k < |held|
    ensures
      var (rule, u) := (held[k].resources.rule.id, WithoutRows(t, Unserved(held, resources, k)));
      WithoutRows(t, Unserved(held, resources, k + 1)) == if Serves(resources, rule) then u else RowDeleted(u, rule)
  {
    var rule := held[k].resources.rule.id;
    assert Unserved(held, resources, k + 1) ==
           if Serves(resources, rule) then Unserved(held, resources, k)
           else Unserved(held, resources, k) + {rule};
  }

  /** What is stored for a served rule is as it was. */
  lemma ServedKeepsDisk(held: seq<LiveRuntime>, resources: seq<Sites.ConfiguredResources>, t: Tables, k: nat)
    requires k < |resources|
    ensures
      var (rule, u) := (resources[k].rule.id, WithoutRows(t, Unserved(held, resources, |held|)));
      DiskOf(u, rule) == DiskOf(t, rule)
  {
    var (rule, u) := (resources[k].rule.id, WithoutRows(t, Unserved(held, resources, |held|)));
    assert rule !in Unserved(held, resources, |held|);
    assert Keys(u, rule) == Keys(t, rule);
  }

  function RulesIn(resources: seq<Sites.ConfiguredResources>): (rules: seq<Rule>)
    ensures |rules| == |resources|
  {
    seq(|resources|, k requires 0 <= k < |resources| => resources[k].rule)
  }

  lemma BuiltMore(built: seq<LiveRuntime>, extended: seq<LiveRuntime>, resources: seq<Sites.ConfiguredResources>)
    requires Built(built, resources) && |built| < |resources| && |extended| == |built| + 1
    requires extended[..|built|] == built && extended[|built|].resources == resources[|built|]
    ensures Built(extended, resources)
  {
    assert extended == built + [extended[|built|]];
  }

  lemma SameRules(built: seq<LiveRuntime>, resources: seq<Sites.ConfiguredResources>)
    requires |built| == |resources| && Built(built, resources)
    ensures RulesOf(built) == RulesIn(resources)
  {
  }

  /** What is stored for the rules still to be built is as it was. */
  predicate Unbuilt(resources: seq<Sites.ConfiguredResources>, n: nat, t: Tables, u: Tables)
  {
    forall k :: n <= k < |resources| ==> DiskOf(u, resources[k].rule.id) == DiskOf(t, resources[k].rule.id)
  }

  lemma UnbuiltNext(resources: seq<Sites.ConfiguredResources>, n: nat, t: Tables, u: Tables)
    requires Unbuilt(resources, n, t, u) && n < |resources|
    ensures DiskOf(u, resources[n].rule.id) == DiskOf(t, resources[n].rule.id)
  {
  }

  lemma UnbuiltMore(resources: seq<Sites.ConfiguredResources>, n: nat, t: Tables, u: Tables, v: Tables)
    requires Unbuilt(resources, n, t, u) && n < |resources| && Beside(u, v, resources[n].rule.id)
    requires forall j, k :: 0 <= j < k < |resources| ==> resources[j].rule.id < resources[k].rule.id
    ensures Unbuilt(resources, n + 1, t, v)
  {
    forall k | n + 1 <= k < |resources| ensures DiskOf(v, resources[k].rule.id) == DiskOf(t, resources[k].rule.id) {
      BesideDisk(u, v, resources[n].rule.id, resources[k].rule.id);
    }
  }

  predicate Serves(resources: seq<Sites.ConfiguredResources>, rule: Id)
  {
    exists k :: 0 <= k < |resources| && resources[k].rule.id == rule
  }

  /** The rule's keys find their rows; a rule row is only ever deleted together with everything else. */
  predicate Referenced(t: Tables, rule: Rule)
  {
    rule.id in t.rules && RuleLinked(t, rule)
  }

  predicate AllReferenced(held: seq<LiveRuntime>, t: Tables)
  {
    forall k :: 0 <= k < |held| ==> Referenced(t, held[k].resources.rule)
  }

  /** The linkages, each once, in the order of their rules. */
  predicate Enumerates(resources: seq<Sites.ConfiguredResources>, active: map<Id, Sites.ConfiguredResources>)
  {
    && (forall k :: 0 <= k < |resources| ==>
          resources[k].rule.id in active && active[resources[k].rule.id] == resources[k])
    && (forall j, k :: 0 <= j < k < |resources| ==> resources[j].rule.id < resources[k].rule.id)
    && (forall r :: r in active ==> active[r] in resources)
  }

  lemma InRuleOrder(
    rules: seq<Id>, active: map<Id, Sites.ConfiguredResources>, resources: seq<Sites.ConfiguredResources>)
    requires Lists(rules, active.Keys) && forall r :: r in active ==> active[r].rule.id == r
    requires |resources| == |rules| && forall k :: 0 <= k < |rules| ==> resources[k] == active[rules[k]]
    ensures Enumerates(resources, active)
  {
    forall r | r in active ensures active[r] in resources {
      var k :| 0 <= k < |rules| && rules[k] == r;
      assert resources[k] == active[r];
    }
  }

  /** Listed are exactly the rules that are switched on together with their tracker, their place and their
      journal, each once, with these three, and in the order of their identifiers. */
  predicate ListsSwitchedOn(resources: seq<Sites.ConfiguredResources>, t: Tables)
    requires Consistent(t)
  {
    && (forall r :: r in t.rules ==>
          var (rule, listed) := (t.rules[r], Serves(resources, r));
          listed <==> rule.enabled && t.trackers[rule.tracker].enabled && t.places[rule.place].enabled
                      && t.journals[rule.journal].enabled)
    && (forall k :: 0 <= k < |resources| ==>
          var rule := resources[k].rule;
          && rule.id in t.rules && rule == t.rules[rule.id]
          && resources[k].tracker == t.trackers[rule.tracker] && resources[k].place == t.places[rule.place]
          && resources[k].journal == t.journals[rule.journal])
    && (forall j, k :: 0 <= j < k < |resources| ==> resources[j].rule.id < resources[k].rule.id)
  }

  lemma ListedExactly(t: Tables, resources: seq<Sites.ConfiguredResources>)
    requires Consistent(t) && Enumerates(resources, Sites.ActiveResources(t))
    ensures ListsSwitchedOn(resources, t)
  {
    forall r | r in t.rules
      ensures Serves(resources, r) <==>
                && t.rules[r].enabled && t.trackers[t.rules[r].tracker].enabled
                && t.places[t.rules[r].place].enabled && t.journals[t.rules[r].journal].enabled
    {
      Sites.ActiveExactly(t, r);
      if r in Sites.ActiveResources(t) {
        var k :| 0 <= k < |resources| && resources[k] == Sites.ActiveResources(t)[r];
      }
    }
    forall k | 0 <= k < |resources|
      ensures
        && resources[k].rule.id in t.rules && resources[k].rule == t.rules[resources[k].rule.id]
        && resources[k] == Sites.ConfiguredResources(
             t.trackers[resources[k].rule.tracker], t.places[resources[k].rule.place],
             t.journals[resources[k].rule.journal], resources[k].rule)
    {
      Sites.ActiveIsRule(t, resources[k].rule.id);
      Sites.ActiveExactly(t, resources[k].rule.id);
    }
  }

  /** Current linkages in the order of their rules. */
  predicate Planned(resources: seq<Sites.ConfiguredResources>, t: Tables)
  {
    && (forall k :: 0 <= k < |resources| ==> Drain.Linkage(t, resources[k]))
    && (forall j, k :: 0 <= j < k < |resources| ==> resources[j].rule.id < resources[k].rule.id)
  }

  lemma EnumeratedIsPlanned(resources: seq<Sites.ConfiguredResources>, t: Tables)
    requires Consistent(t) && Enumerates(resources, Sites.ActiveResources(t))
    ensures Planned(resources, t)
  {
  }

  /** The runtimes built so far serve the first linkages. */
  predicate Built(built: seq<LiveRuntime>, resources: seq<Sites.ConfiguredResources>)
  {
    |built| <= |resources| && forall k :: 0 <= k < |built| ==> built[k].resources == resources[k]
  }

  lemma PlannedNext(resources: seq<Sites.ConfiguredResources>, built: seq<LiveRuntime>, t: Tables, u: Tables)
    requires Planned(resources, t) && BesideAll(t, u) && Built(built, resources) && |built| < |resources|
    ensures Drain.Linkage(u, resources[|built|])
    ensures forall k :: 0 <= k < |built| ==> built[k].resources.rule.id != resources[|built|].rule.id
  {
  }

  predicate Covers(held: seq<LiveRuntime>, active: map<Id, Sites.ConfiguredResources>)
  {
    forall r :: r in active ==> exists k :: 0 <= k < |held| && held[k].resources == active[r]
  }

  lemma SameActive(t: Tables, u: Tables)
    requires BesideAll(t, u)
    ensures Sites.ActiveResources(t) == Sites.ActiveResources(u)
  {
  }

  lemma CoversBuilt(resources: seq<Sites.ConfiguredResources>, built: seq<LiveRuntime>, t: Tables, u: Tables)
    requires Enumerates(resources, Sites.ActiveResources(t)) && BesideAll(t, u)
    requires |built| == |resources| && Built(built, resources)
    ensures Covers(built, Sites.ActiveResources(u))
  {
    SameActive(t, u);
    var active := Sites.ActiveResources(u);
    forall r | r in active ensures exists k :: 0 <= k < |built| && built[k].resources == active[r] {
      var k :| 0 <= k < |resources| && resources[k] == active[r];
      assert built[k].resources == active[r];
    }
  }
}
