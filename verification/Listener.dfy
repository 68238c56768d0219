/** The listener as the program writes it: it evaluates tracker states and hands them to the
    engines whose rules follow the tracker. */
module Listening {
  import opened Wrappers
  import opened Models
  import opened RuntimeStates
  import opened Machine
  import opened Tables
  import opened Driving
  import opened TransitionEngine
  import opened Fleets
  import opened Runtimes
  import Geofence

  class GeofenceTrackerListener {
    const station: Station
    const runtimes: seq<LiveRuntime>
    var active: bool

    constructor (station: Station, runtimes: seq<LiveRuntime>)
      ensures this.station == station && this.runtimes == runtimes && !active
    {
      this.station, this.runtimes := station, runtimes;
      active := false;
    }

    method Stop()
      modifies this
      ensures !active
    {
      active := false;
    }

    /** Evaluate a tracker state against the engine's confirmed presence, then submit it. */
    method ProcessRuntime(k: nat, home: Home, raw: Geofence.TrackerState) returns (raised: Option<Detail>)
      requires k < |runtimes|
      requires runtimes[k].engine.Timed() && (runtimes[k].engine.accepting ==> runtimes[k].engine.Valid())
      modifies runtimes[k].engine, runtimes[k].engine.db, runtimes[k].engine.clock,
               runtimes[k].engine.scheduler, runtimes[k].engine.ids, runtimes[k].engine.evaluator,
               runtimes[k].engine.observer
      ensures runtimes[k].engine.Timed() && (old(runtimes[k].engine.Valid()) ==> runtimes[k].engine.Valid())
      ensures
        var engine := runtimes[k].engine;
        Beside(old(engine.db.committed), engine.db.committed, engine.rule.id)
      ensures
        var (engine, rule) := (runtimes[k].engine, runtimes[k].resources.rule.id);
        engine.Sys(Idle, raised) == Given(old(engine.Sys(Idle, None)), Heard(home, raw, rule, old(engine.state)))
    {
      var runtime := runtimes[k];
      var heard := Heard(home, raw, runtime.resources.rule.id, runtime.engine.state);
      raised := runtime.engine.Observe(heard);
    }

    /** That leaves a live engine live and raises nothing. */
    method ProcessLive(k: nat, home: Home, raw: Geofence.TrackerState)
      requires k < |runtimes| && station.Usable() && station.Wired(runtimes[k]) && station.Live(runtimes[k])
      modifies station.db, station.clock, station.ids, runtimes[k].engine,
               runtimes[k].engine.scheduler, runtimes[k].engine.evaluator, runtimes[k].engine.observer
      ensures station.Usable() && station.Live(runtimes[k])
      ensures Beside(old(station.db.committed), station.db.committed, runtimes[k].resources.rule.id)
      ensures
        var engine := runtimes[k].engine;
        engine.Sys(Idle, None) == Told(old(engine.Sys(Idle, None)), runtimes[k].resources.rule, home, raw)
    {
      ghost var (t, s) := (station.db.committed, runtimes[k].engine.Sys(Idle, None));
      station.LiveIsValid(runtimes[k]);
      GivenKeeps(s, Heard(home, raw, runtimes[k].resources.rule.id, runtimes[k].engine.state));
      var raised := ProcessRuntime(k, home, raw);
      station.StillLive(t, runtimes[k], raised);
    }

    /** The other engines are not touched. */
    method ProcessApart(k: nat, home: Home, raw: Geofence.TrackerState, ghost before: seq<System>)
      requires k < |runtimes| && station.Usable() && station.Wired(runtimes[k]) && station.Live(runtimes[k])
      requires |before| == |runtimes|
      requires forall i :: 0 <= i < |runtimes| && i != k ==>
                 Untouched(runtimes[i], before[i]) && Disjoint(runtimes[i], runtimes[k])
      modifies station.db, station.clock, station.ids, runtimes[k].engine,
               runtimes[k].engine.scheduler, runtimes[k].engine.evaluator, runtimes[k].engine.observer
      ensures station.Usable() && station.Live(runtimes[k])
      ensures Beside(old(station.db.committed), station.db.committed, runtimes[k].resources.rule.id)
      ensures
        var engine := runtimes[k].engine;
        engine.Sys(Idle, None) == Told(old(engine.Sys(Idle, None)), runtimes[k].resources.rule, home, raw)
      ensures forall i :: 0 <= i < |runtimes| && i != k ==>
                Untouched(runtimes[i], before[i])
    {
      ProcessLive(k, home, raw);
    }

    /** So all engines stay live, and only the k-th has come to something new. */
    method ProcessAmong(k: nat, home: Home, raw: Geofence.TrackerState)
      requires k < |runtimes| && station.AllLive(runtimes)
      modifies station.db, station.clock, station.ids, runtimes[k].engine,
               runtimes[k].engine.scheduler, runtimes[k].engine.evaluator, runtimes[k].engine.observer
      ensures station.AllLive(runtimes)
      ensures Beside(old(station.db.committed), station.db.committed, runtimes[k].resources.rule.id)
      ensures
        station.FleetOf(runtimes) == Tell(old(station.FleetOf(runtimes)), k, runtimes[k].resources.rule, home, raw)
    {
      ghost var (t, before, s) := (station.db.committed, station.Owned(runtimes), runtimes[k].engine.Sys(Idle, None));
      assert s == Whole(before[k], station.Stock());
      station.AllUntouched(runtimes, before);
      ProcessApart(k, home, raw, before);
      station.OthersUntouched(t, runtimes, k, before);
      ghost var u := runtimes[k].engine.Sys(Idle, None);
      assert station.Owned(runtimes)[k] == Apart(u) && station.Stock() == SharedBy(u);
    }

    /** Submit a tracker state to every engine whose rule follows this tracker, and to no other, unless
        the listener has been stopped. */
    method ProcessState(tracker: Id, home: Home, raw: Geofence.TrackerState)
      requires station.AllLive(runtimes)
      modifies station.db, station.clock, station.ids,
               set r | r in runtimes && r.resources.rule.tracker == tracker :: r.engine,
               set r | r in runtimes && r.resources.rule.tracker == tracker :: r.engine.scheduler,
               set r | r in runtimes && r.resources.rule.tracker == tracker :: r.engine.evaluator,
               set r | r in runtimes && r.resources.rule.tracker == tracker :: r.engine.observer
      ensures station.AllLive(runtimes) && BesideAll(old(station.db.committed), station.db.committed)
      ensures
        var f := old(station.FleetOf(runtimes));
        station.FleetOf(runtimes) ==
        if active then Processed(RulesOf(runtimes), |runtimes|, tracker, home, raw, f) else f
      ensures !active ==> station.db.committed == old(station.db.committed)
    {
      if !active {
        return;
      }
      ghost var (f, t) := (station.FleetOf(runtimes), station.db.committed);
      var k := 0;
      while k < |runtimes|
        invariant 0 <= k <= |runtimes| && station.AllLive(runtimes)
        invariant BesideAll(t, station.db.committed)
        invariant station.FleetOf(runtimes) == Processed(RulesOf(runtimes), k, tracker, home, raw, f)
      {
        ProcessNext(k, tracker, home, raw, f, t);
        k := k + 1;
      }
    }

    method ProcessNext(
      k: nat, tracker: Id, home: Home, raw: Geofence.TrackerState, ghost f: Fleet, ghost t: Tables)
      requires station.AllLive(runtimes) && k < |runtimes| == |f.owned| && BesideAll(t, station.db.committed)
      requires station.FleetOf(runtimes) == Processed(RulesOf(runtimes), k, tracker, home, raw, f)
      modifies station.db, station.clock, station.ids,
               set r | r in runtimes && r.resources.rule.tracker == tracker :: r.engine,
               set r | r in runtimes && r.resources.rule.tracker == tracker :: r.engine.scheduler,
               set r | r in runtimes && r.resources.rule.tracker == tracker :: r.engine.evaluator,
               set r | r in runtimes && r.resources.rule.tracker == tracker :: r.engine.observer
      ensures station.AllLive(runtimes) && BesideAll(t, station.db.committed)
      ensures station.FleetOf(runtimes) == Processed(RulesOf(runtimes), k + 1, tracker, home, raw, f)
    {
      ProcessedMore(RulesOf(runtimes), k, tracker, home, raw, f);
      if runtimes[k].resources.rule.tracker == tracker {
        assert runtimes[k] in runtimes;
        ghost var u := station.db.committed;
        ProcessAmong(k, home, raw);
        BesideAllThen(t, u, station.db.committed, runtimes[k].resources.rule.id);
      }
    }

    /** The trackers that some rule follows, in order. */
    function EntityIds(): (ids: seq<Id>)
      ensures ids == Sorted(TrackersOf(RulesOf(runtimes)))
    {
      Sorted(TrackersOf(RulesOf(runtimes)))
    }

    /** Register, then hand every engine the present state of its tracker. */
    method Start(home: Home)
      requires station.AllLive(runtimes)
      modifies this, station.db, station.clock, station.ids,
               set r | r in runtimes :: r.engine, set r | r in runtimes :: r.engine.scheduler,
               set r | r in runtimes :: r.engine.evaluator, set r | r in runtimes :: r.engine.observer
      ensures active && station.AllLive(runtimes) && BesideAll(old(station.db.committed), station.db.committed)
      ensures
        var f := old(station.FleetOf(runtimes));
        station.FleetOf(runtimes) == if old(active) then f else UpToDate(RulesOf(runtimes), home, f)
    {
      if active {
        return;
      }
      Register();
      var trackers := EntityIds();
      Synchronize(trackers, home);
    }

    method Register()
      requires station.AllLive(runtimes)
      modifies this
      ensures active && station.AllLive(runtimes)
      ensures station.FleetOf(runtimes) == old(station.FleetOf(runtimes))
      ensures station.db.committed == old(station.db.committed)
    {
      active := true;
    }

    method Synchronize(trackers: seq<Id>, home: Home)
      requires active && station.AllLive(runtimes)
      modifies station.db, station.clock, station.ids,
               set r | r in runtimes :: r.engine, set r | r in runtimes :: r.engine.scheduler,
               set r | r in runtimes :: r.engine.evaluator, set r | r in runtimes :: r.engine.observer
      ensures station.AllLive(runtimes) && BesideAll(old(station.db.committed), station.db.committed)
      ensures
        station.FleetOf(runtimes) ==
        Synchronized(RulesOf(runtimes), trackers, |trackers|, home, old(station.FleetOf(runtimes)))
    {
      ghost var (f, t) := (station.FleetOf(runtimes), station.db.committed);
      var n := 0;
      while n < |trackers|
        invariant 0 <= n <= |trackers|
        invariant station.AllLive(runtimes) && BesideAll(t, station.db.committed)
        invariant station.FleetOf(runtimes) == Synchronized(RulesOf(runtimes), trackers, n, home, f)
      {
        SynchronizeNext(trackers, n, home, f, t);
        n := n + 1;
      }
    }

    method SynchronizeNext(trackers: seq<Id>, n: nat, home: Home, ghost f: Fleet, ghost t: Tables)
      requires active && station.AllLive(runtimes) && BesideAll(t, station.db.committed)
      requires n < |trackers| && |f.owned| == |runtimes|
      requires station.FleetOf(runtimes) == Synchronized(RulesOf(runtimes), trackers, n, home, f)
      modifies station.db, station.clock, station.ids,
               set r | r in runtimes :: r.engine, set r | r in runtimes :: r.engine.scheduler,
               set r | r in runtimes :: r.engine.evaluator, set r | r in runtimes :: r.engine.observer
      ensures station.AllLive(runtimes) && BesideAll(t, station.db.committed)
      ensures station.FleetOf(runtimes) == Synchronized(RulesOf(runtimes), trackers, n + 1, home, f)
    {
      ghost var u := station.db.committed;
      SynchronizedMore(RulesOf(runtimes), trackers, n, home, f);
      SynchronizeOne(trackers[n], home);
      BesideAllBoth(t, u, station.db.committed);
    }

    /** Home Assistant may know nothing of the tracker yet. */
    method SynchronizeOne(tracker: Id, home: Home)
      requires active && station.AllLive(runtimes)
      modifies station.db, station.clock, station.ids,
               set r | r in runtimes :: r.engine, set r | r in runtimes :: r.engine.scheduler,
               set r | r in runtimes :: r.engine.evaluator, set r | r in runtimes :: r.engine.observer
      ensures station.AllLive(runtimes) && BesideAll(old(station.db.committed), station.db.committed)
      ensures
        var f := old(station.FleetOf(runtimes));
        station.FleetOf(runtimes) ==
        if tracker in home.states then
          Processed(RulesOf(runtimes), |runtimes|, tracker, home, home.states[tracker], f)
        else f
    {
      if tracker in home.states {
        ProcessState(tracker, home, home.states[tracker]);
      }
    }
  }
}
