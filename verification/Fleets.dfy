/** Several engines at one station, as values: what each of them has alone, what they share, and what a
    tracker state or a rebuild does to all of them, one engine after the other. */
module Fleets {
  import opened Wrappers
  import opened Models
  import opened RuntimeStates
  import opened Machine
  import opened Tables
  import opened Driving
  import opened Host
  import Alarms
  import Geofence

  // ----- what engines share, and what they do not -----

  /** The clock's readings to come, its last one, and the next identifier. */
  datatype Shared = Shared(tape: seq<Time>, last: Time, nextId: Id)

  /** What each engine has alone (itself, its stored part, timers, notifications and the answers of its
      re-check), and what they share. */
  datatype Fleet = Fleet(owned: seq<System>, shared: Shared)

  function Apart(s: System): System
  {
    s.(supply := Supply([], 0, s.supply.answers, 0))
  }

  function SharedBy(s: System): Shared
  {
    Shared(s.supply.tape, s.supply.last, s.supply.nextId)
  }

  /** An engine with all that it works on. */
  function Whole(own: System, shared: Shared): System
  {
    own.(supply := Supply(shared.tape, shared.last, own.supply.answers, shared.nextId))
  }

  /** The k-th engine has come to this. */
  function Turned(f: Fleet, k: nat, u: System): Fleet
    requires k < |f.owned|
  {
    Fleet(f.owned[k := Apart(u)], SharedBy(u))
  }

  // ----- what engines hear -----

  /** What Home Assistant reports: the present state of each tracker, what surrounds each rule, distances, and
      the states in which the re-checks of each rule will find its tracker, one after the other. */
  datatype Home = Home(
    states: map<Id, Geofence.TrackerState>, around: Id -> Geofence.Surroundings, distance: Geofence.Distance,
    live: Id -> seq<Option<Geofence.TrackerState>>)

  /** What the re-checks of a rule will answer, whatever state its engine then has. */
  function ReChecks(home: Home, rule: Id): (answers: seq<ReChecked>)
    ensures |answers| == |home.live(rule)|
    ensures forall k, state :: 0 <= k < |answers| ==>
              answers[k](state) == Geofence.ReCheck(home.live(rule)[k], home.around(rule), state, home.distance)
  {
    var (live, around, distance) := (home.live(rule), home.around(rule), home.distance);
    seq(|live|, k requires 0 <= k < |live| =>
      (state: RuntimeState) => Geofence.ReCheck(live[k], around, state, distance))
  }

  /** What the rule's engine hears of a tracker state while it remembers this: the evaluation, if usable. */
  function Heard(home: Home, raw: Geofence.TrackerState, rule: Id, state: Option<RuntimeState>): Option<Observation>
  {
    match Geofence.EvaluateTrackerState(raw, home.around(rule), state, home.distance)
    case Failure(_) => None
    case Success(evaluated) => Some(evaluated.observation)
  }

  function Given(s: System, heard: Option<Observation>): System
  {
    match heard
    case None => s
    case Some(o) => Observed(s, o)
  }

  /** What an engine hears is the state located against the presence it has itself confirmed, or Unknown if it
      has confirmed none yet; and it hears nothing exactly if the state cannot be evaluated. */
  lemma HeardExactly(home: Home, raw: Geofence.TrackerState, rule: Id, state: Option<RuntimeState>)
    ensures
      var around := home.around(rule);
      var place := Geofence.ResolvePlace(around.place, around.zone);
      var last := if state.None? then None else state.value.lastProcessedAt;
      if Geofence.Usable(raw, last, around.thresholds.maxAccuracy) && place.Success?
         && home.distance(Geofence.Position(raw), place.value.center) >= 0.0 then
        && Heard(home, raw, rule, state).Some?
        && var o := Heard(home, raw, rule, state).value;
           && o.observedAt == raw.observedAt && o.coordinates == Geofence.Position(raw)
           && o.accuracy == (if raw.accuracy.Finite? then Some(raw.accuracy.value) else None)
           && Geofence.Located(
                o.presence, home.distance(Geofence.Position(raw), place.value.center), place.value.radius,
                around.thresholds.exitMargin, if state.None? then Unknown else state.value.presence)
      else Heard(home, raw, rule, state).None?
  {
    Geofence.EvaluatedExactly(raw, home.around(rule), state, home.distance);
    if Geofence.EvaluateTrackerState(raw, home.around(rule), state, home.distance).Success? {
      Geofence.EvaluatedPresence(raw, home.around(rule), state, home.distance);
    }
  }

  /** A usable state that is beyond the band of the rule's place, or within its radius. */
  predicate Clear(home: Home, raw: Geofence.TrackerState, rule: Id, state: Option<RuntimeState>, p: Presence)
  {
    var around := home.around(rule);
    var place := Geofence.ResolvePlace(around.place, around.zone);
    && Geofence.Usable(raw, if state.None? then None else state.value.lastProcessedAt, around.thresholds.maxAccuracy)
    && place.Success?
    && var d := home.distance(Geofence.Position(raw), place.value.center);
       && 0.0 <= d
       && (p == Outside ==> place.value.radius < d && place.value.radius + around.thresholds.exitMargin <= d)
       && (p == Inside ==> d <= place.value.radius)
       && p != Unknown
  }

  function ObservedFrom(raw: Geofence.TrackerState, p: Presence): Observation
    requires raw.latitude.Finite? && raw.longitude.Finite?
  {
    var accuracy := if raw.accuracy.Finite? then Some(raw.accuracy.value) else None;
    Observation(p, raw.observedAt, Geofence.Position(raw), accuracy)
  }

  lemma ClearIsHeard(
    home: Home, raw: Geofence.TrackerState, rule: Id, state: Option<RuntimeState>, p: Presence)
    requires Clear(home, raw, rule, state, p)
    ensures Heard(home, raw, rule, state) == Some(ObservedFrom(raw, p))
  {
    HeardExactly(home, raw, rule, state);
  }

  /** The state in which a transition to the observed presence has begun. */
  function Begun(rule: Rule, s: RuntimeState, o: Observation, now: Time, keeps: bool): RuntimeState
  {
    var seconds := if o.presence == Inside then rule.enterSeconds else rule.exitSeconds;
    s.(pendingTransition := Some(o.presence), pendingStartedAt := Some(now),
       pendingDeadline := Some(now + seconds * 1_000_000), pendingGeneration := s.pendingGeneration + 1,
       latestObservationAt := Some(o.observedAt), lastProcessedAt := Some(o.observedAt),
       latestCoordinates := if keeps then Some(o.coordinates) else None,
       latestAccuracy := o.accuracy, updatedAt := now)
  }

  lemma BegunState(rule: Rule, s: RuntimeState, o: Observation, now: Time, keeps: bool)
    requires o.presence != Unknown
    ensures PendingState(rule, s, o, now, keeps) == Begun(rule, s, o, now, keeps)
  {
  }

  /** The first clear state that an idle engine is told is remembered as it is. */
  lemma ClearStateFirst(s: System, rule: Rule, home: Home, raw: Geofence.TrackerState, p: Presence)
    requires s.engine.accepting && s.engine.pc.Idle? && s.engine.state.None?
    requires Clear(home, raw, rule.id, s.engine.state, p)
    ensures
      var u := Told(s, rule, home, raw);
      u.engine.state.Some? && u.engine.state.value.presence == p && u.disk.row == u.engine.state
  {
    ClearIsHeard(home, raw, rule.id, s.engine.state, p);
    BaselineSample(s, ObservedFrom(raw, p));
  }

  /** A clear state on the other side begins a transition that waits for the seconds of its direction. */
  lemma ClearStateBegins(s: System, rule: Rule, home: Home, raw: Geofence.TrackerState, p: Presence)
    requires s.engine.accepting && s.engine.pc.Idle? && s.engine.state.Some?
    requires s.engine.state.value.presence != p && s.engine.state.value.pendingTransition.None?
    requires Clear(home, raw, rule.id, s.engine.state, p)
    ensures
      var (o, now) := (ObservedFrom(raw, p), Reading(s.supply.tape, s.supply.last));
      var begun := Begun(s.engine.rule, s.engine.state.value, o, now, s.engine.storeCoordinates);
      Told(s, rule, home, raw) ==
      Drive(Adopting(s, begun, Restore, Alarms.Cancel(s.alarm).(silent := None, refused := None)))
  {
    ClearIsHeard(home, raw, rule.id, s.engine.state, p);
    BeginningSample(s, ObservedFrom(raw, p));
    var now := Driving.Read(s).supply.last;
    BegunState(s.engine.rule, s.engine.state.value, ObservedFrom(raw, p), now, s.engine.storeCoordinates);
  }

  /** A rule's engine takes a tracker state. */
  function Told(s: System, rule: Rule, home: Home, raw: Geofence.TrackerState): System
  {
    Given(s, Heard(home, raw, rule.id, s.engine.state))
  }

  /** The k-th engine takes a tracker state. */
  function Tell(f: Fleet, k: nat, rule: Rule, home: Home, raw: Geofence.TrackerState): Fleet
    requires k < |f.owned|
  {
    Turned(f, k, Told(Whole(f.owned[k], f.shared), rule, home, raw))
  }

  /** The k-th engine's callback has the lock. */
  function Fired(f: Fleet, k: nat, generation: nat): Fleet
    requires k < |f.owned|
  {
    Turned(f, k, Operate(Whole(f.owned[k], f.shared), Input.Fire(generation)))
  }

  /** Of the first n engines, those that follow the tracker have taken this state, in order. */
  function Processed(
    rules: seq<Rule>, n: nat, tracker: Id, home: Home, raw: Geofence.TrackerState, f: Fleet): (g: Fleet)
    requires n <= |rules| == |f.owned|
    ensures |g.owned| == |f.owned|
  {
    if n == 0 then f
    else
      var g := Processed(rules, n - 1, tracker, home, raw, f);
      if rules[n - 1].tracker == tracker then Tell(g, n - 1, rules[n - 1], home, raw) else g
  }

  lemma ProcessedMore(
    rules: seq<Rule>, n: nat, tracker: Id, home: Home, raw: Geofence.TrackerState, f: Fleet)
    requires n < |rules| == |f.owned|
    ensures
      var g := Processed(rules, n, tracker, home, raw, f);
      Processed(rules, n + 1, tracker, home, raw, f) ==
      if rules[n].tracker == tracker then Tell(g, n, rules[n], home, raw) else g
  {
  }

  /** All engines have taken the present states of the first n trackers, tracker by tracker. */
  function Synchronized(rules: seq<Rule>, trackers: seq<Id>, n: nat, home: Home, f: Fleet): (g: Fleet)
    requires n <= |trackers| && |rules| == |f.owned|
    ensures |g.owned| == |f.owned|
  {
    if n == 0 then f
    else
      var g := Synchronized(rules, trackers, n - 1, home, f);
      if trackers[n - 1] in home.states then
        Processed(rules, |rules|, trackers[n - 1], home, home.states[trackers[n - 1]], g)
      else g
  }

  lemma SynchronizedMore(rules: seq<Rule>, trackers: seq<Id>, n: nat, home: Home, f: Fleet)
    requires n < |trackers| && |rules| == |f.owned|
    ensures
      var g := Synchronized(rules, trackers, n, home, f);
      Synchronized(rules, trackers, n + 1, home, f) ==
      if trackers[n] in home.states then
        Processed(rules, |rules|, trackers[n], home, home.states[trackers[n]], g)
      else g
  {
  }

  /** All engines have taken the present states of their trackers. */
  function UpToDate(rules: seq<Rule>, home: Home, f: Fleet): (g: Fleet)
    requires |rules| == |f.owned|
    ensures |g.owned| == |f.owned|
  {
    var trackers := Sorted(TrackersOf(rules));
    Synchronized(rules, trackers, |trackers|, home, f)
  }

  /** The trackers that some rule follows. */
  function TrackersOf(rules: seq<Rule>): set<Id>
  {
    set k | 0 <= k < |rules| :: rules[k].tracker
  }

  // ----- rebuilds -----

  /** What every engine of a program is built with. */
  datatype Setting = Setting(source: Source, storeCoordinates: bool, home: Home)

  function NewbornOf(rule: Rule, setting: Setting, d: Disk, shared: Shared): System
  {
    Newborn(rule, setting.source, setting.storeCoordinates, d,
            Supply(shared.tape, shared.last, ReChecks(setting.home, rule.id), shared.nextId))
  }

  /** A new engine joins and recovers from what is stored for its rule. */
  function Joined(f: Fleet, rule: Rule, setting: Setting, d: Disk): Fleet
  {
    var s := Recovered(NewbornOf(rule, setting, d, f.shared));
    Fleet(f.owned + [Apart(s)], SharedBy(s))
  }

  /** New engines for the first n rules, each recovered from what these tables hold for its rule. */
  function Recovering(rules: seq<Rule>, n: nat, setting: Setting, t: Tables, shared: Shared): (f: Fleet)
    requires n <= |rules|
    ensures |f.owned| == n
  {
    if n == 0 then Fleet([], shared)
    else Joined(Recovering(rules, n - 1, setting, t, shared), rules[n - 1], setting, DiskOf(t, rules[n - 1].id))
  }

  lemma RecoveringMore(rules: seq<Rule>, n: nat, setting: Setting, t: Tables, shared: Shared)
    requires n < |rules|
    ensures
      Recovering(rules, n + 1, setting, t, shared) ==
      Joined(Recovering(rules, n, setting, t, shared), rules[n], setting, DiskOf(t, rules[n].id))
  {
  }

  /** A rebuild: every engine recovers, and then all of them take the present states of their trackers. */
  function Rebuilt(rules: seq<Rule>, setting: Setting, t: Tables, shared: Shared): Fleet
  {
    UpToDate(rules, setting.home, Recovering(rules, |rules|, setting, t, shared))
  }

  lemma RebuiltIs(rules: seq<Rule>, setting: Setting, t: Tables, shared: Shared)
    ensures
      Rebuilt(rules, setting, t, shared) ==
      UpToDate(rules, setting.home, Recovering(rules, |rules|, setting, t, shared))
  {
  }

  /** A rebuild looks only at what is stored for the rules. */
  lemma {:induction false} SameRecovery(
    rules: seq<Rule>, n: nat, setting: Setting, t: Tables, u: Tables, shared: Shared)
    requires n <= |rules| && forall k :: 0 <= k < n ==> DiskOf(t, rules[k].id) == DiskOf(u, rules[k].id)
    ensures Recovering(rules, n, setting, t, shared) == Recovering(rules, n, setting, u, shared)
    decreases n
  {
    if n > 0 {
      SameRecovery(rules, n - 1, setting, t, u, shared);
    }
  }

  // ----- identifiers in order -----

  predicate Lists(ids: seq<Id>, all: set<Id>)
  {
    && (forall k :: 0 <= k < |ids| ==> ids[k] in all)
    && (forall j, k :: 0 <= j < k < |ids| ==> ids[j] < ids[k])
    && (forall id :: id in all ==> id in ids)
  }

  function Sorted(all: set<Id>): (ids: seq<Id>)
    ensures Lists(ids, all)
  {
    if all == {} then []
    else
      LeastOf(all);
      var least :| least in all && forall other :: other in all ==> least <= other;
      var rest := Sorted(all - {least});
      LeastFirst(least, rest, all);
      [least] + rest
  }

  lemma LeastFirst(least: Id, rest: seq<Id>, all: set<Id>)
    requires least in all && (forall other :: other in all ==> least <= other) && Lists(rest, all - {least})
    ensures Lists([least] + rest, all)
  {
    var ids := [least] + rest;
    forall k | 0 < k < |ids| ensures ids[k] in all && least < ids[k] {
      assert ids[k] == rest[k - 1];
    }
    forall id | id in all ensures id in ids {
      assert id != least ==> id in rest;
    }
  }

  lemma LeastOf(ids: set<Id>)
    requires ids != {}
    ensures exists least :: least in ids && forall other :: other in ids ==> least <= other
  {
    var some :| some in ids;
    LeastExists(ids, some);
  }

  lemma {:induction false} LeastExists(ids: set<Id>, x: Id)
    requires x in ids
    ensures exists least :: least in ids && forall other :: other in ids ==> least <= other
    decreases x
  {
    if y :| y in ids && y < x {
      LeastExists(ids, y);
    }
  }
}
