/** Each engine of a fleet lives its own life among the others: what the others do only uses up readings
    of the clock and identifiers. So what holds of every run holds of every engine of a fleet. */
module FleetLives {
  import opened Wrappers
  import opened Models
  import opened Machine
  import opened Worlds
  import opened Safety
  import opened Tables
  import opened Host
  import opened Alarms
  import opened Driving
  import opened Lifting
  import opened Fleets
  import Geofence
  import Refinement

  // ----- what a fleet does to each engine -----

  /** Each engine that follows the tracker has taken the state once, when the clock and the identifiers
      had come as far as the engines before it have used them; no other engine has changed. */
  lemma {:induction false} ProcessedAt(
    rules: seq<Rule>, n: nat, tracker: Id, home: Home, raw: Geofence.TrackerState, f: Fleet, k: nat)
    requires n <= |rules| == |f.owned| && k < |rules|
    ensures
      Processed(rules, n, tracker, home, raw, f).owned[k] ==
      if k < n && rules[k].tracker == tracker then
        Apart(Told(Whole(f.owned[k], Processed(rules, k, tracker, home, raw, f).shared), rules[k], home, raw))
      else f.owned[k]
    decreases n
  {
    if n > 0 {
      ProcessedAt(rules, n - 1, tracker, home, raw, f, k);
    }
  }

  /** The engine has taken this state once, with these supplies. */
  ghost predicate ToldOnce(own: System, p: Shared, rule: Rule, home: Home, raw: Geofence.TrackerState, after: System)
  {
    after == Apart(Told(Whole(own, p), rule, home, raw))
  }

  ghost predicate Took(own: System, rule: Rule, home: Home, raw: Geofence.TrackerState, after: System)
  {
    exists p: Shared :: ToldOnce(own, p, rule, home, raw, after)
  }

  /** One of the first n trackers. */
  predicate Among(trackers: seq<Id>, n: nat, tracker: Id)
    requires n <= |trackers|
  {
    exists i :: 0 <= i < n && trackers[i] == tracker
  }

  lemma {:induction false} SynchronizedAt(
    rules: seq<Rule>, trackers: seq<Id>, n: nat, home: Home, f: Fleet, k: nat)
    requires n <= |trackers| && k < |rules| == |f.owned|
    requires forall i, j :: 0 <= i < j < |trackers| ==> trackers[i] < trackers[j]
    ensures
      var (tracker, after) := (rules[k].tracker, Synchronized(rules, trackers, n, home, f).owned[k]);
      if Among(trackers, n, tracker) && tracker in home.states then
        Took(f.owned[k], rules[k], home, home.states[tracker], after)
      else after == f.owned[k]
    decreases n
  {
    if n > 0 {
      var g := Synchronized(rules, trackers, n - 1, home, f);
      var tracker := trackers[n - 1];
      SynchronizedAt(rules, trackers, n - 1, home, f, k);
      SynchronizedMore(rules, trackers, n - 1, home, f);
      assert Among(trackers, n, rules[k].tracker) <==>
             Among(trackers, n - 1, rules[k].tracker) || rules[k].tracker == tracker;
      if tracker in home.states {
        LastTracker(rules, tracker, home, g, k);
      }
    }
  }

  lemma LastTracker(rules: seq<Rule>, tracker: Id, home: Home, g: Fleet, k: nat)
    requires k < |rules| == |g.owned| && tracker in home.states
    ensures
      var after := Processed(rules, |rules|, tracker, home, home.states[tracker], g).owned[k];
      if rules[k].tracker == tracker then Took(g.owned[k], rules[k], home, home.states[tracker], after)
      else after == g.owned[k]
  {
    var raw := home.states[tracker];
    ProcessedAt(rules, |rules|, tracker, home, raw, g, k);
    if rules[k].tracker == tracker {
      var p := Processed(rules, k, tracker, home, raw, g).shared;
      assert ToldOnce(g.owned[k], p, rules[k], home, raw, Processed(rules, |rules|, tracker, home, raw, g).owned[k]);
    }
  }

  /** After a start every engine has taken the present state of its tracker exactly once, if there is one, and
      every other engine is as it was. */
  lemma EveryTrackerIsHandedOver(rules: seq<Rule>, home: Home, f: Fleet, k: nat)
    requires k < |rules| == |f.owned|
    ensures
      var (tracker, after) := (rules[k].tracker, UpToDate(rules, home, f).owned[k]);
      if tracker in home.states then Took(f.owned[k], rules[k], home, home.states[tracker], after)
      else after == f.owned[k]
  {
    var trackers := Sorted(TrackersOf(rules));
    SynchronizedAt(rules, trackers, |trackers|, home, f, k);
    assert rules[k].tracker in TrackersOf(rules);
    var i :| 0 <= i < |trackers| && trackers[i] == rules[k].tracker;
  }

  // ----- the shared supplies -----

  ghost predicate PassesBy(p: Supply, readings: nat, draws: nat, q: Supply)
  {
    q.(answers := p.answers) == Passed(p, readings, draws)
  }

  /** From one supply to the other, some readings and some identifiers have been used up. */
  ghost predicate Passes(p: Supply, q: Supply)
  {
    exists readings: nat, draws: nat :: PassesBy(p, readings, draws, q)
  }

  lemma {:induction false} PassedOnce(p: Supply, readings: nat, draws: nat, more: nat)
    ensures Passed(p.(nextId := p.nextId + more), readings, draws) == Passed(p, readings, draws + more)
    decreases readings
  {
    if readings > 0 {
      PassedOnce(p.(tape := Rest(p.tape), last := Reading(p.tape, p.last)), readings - 1, draws, more);
    }
  }

  lemma {:induction false} PassedTwice(p: Supply, readings: nat, draws: nat, r: nat, d: nat)
    ensures Passed(Passed(p, readings, draws), r, d) == Passed(p, readings + r, draws + d)
    decreases readings
  {
    if readings == 0 {
      PassedOnce(p, r, d, draws);
    } else {
      PassedTwice(p.(tape := Rest(p.tape), last := Reading(p.tape, p.last)), readings - 1, draws, r, d);
    }
  }

  lemma {:induction false} PassedAnswers(p: Supply, answers: seq<ReChecked>, readings: nat, draws: nat)
    ensures Passed(p.(answers := answers), readings, draws) == Passed(p, readings, draws).(answers := answers)
    decreases readings
  {
    if readings > 0 {
      PassedAnswers(p.(tape := Rest(p.tape), last := Reading(p.tape, p.last)), answers, readings - 1, draws);
    }
  }

  lemma PassesThen(p: Supply, q: Supply, u: Supply)
    requires Passes(p, q) && Passes(q, u)
    ensures Passes(p, u)
  {
    var r1: nat, d1: nat :| PassesBy(p, r1, d1, q);
    var r2: nat, d2: nat :| PassesBy(q, r2, d2, u);
    PassedAnswers(q, p.answers, r2, d2);
    PassedTwice(p, r1, d1, r2, d2);
    assert PassesBy(p, r1 + r2, d1 + d2, u);
  }

  /** Answers are an engine's own. */
  lemma PassesAnyAnswers(p: Supply, q: Supply, a: seq<ReChecked>, b: seq<ReChecked>)
    requires Passes(p, q)
    ensures Passes(p.(answers := a), q.(answers := b))
  {
    var r: nat, d: nat :| PassesBy(p, r, d, q);
    PassedAnswers(p, a, r, d);
    assert PassesBy(p.(answers := a), r, d, q.(answers := b));
  }

  lemma PassesOne(p: Supply, q: Supply, draws: nat)
    requires q.tape == Rest(p.tape) && q.last == Reading(p.tape, p.last) && q.nextId == p.nextId + draws
    ensures Passes(p, q)
  {
    assert Passed(p.(tape := Rest(p.tape), last := Reading(p.tape, p.last)), 0, draws) == q.(answers := p.answers);
    assert PassesBy(p, 1, draws, q);
  }

  lemma PassesNone(p: Supply)
    ensures Passes(p, p)
  {
    assert PassesBy(p, 0, 0, p);
  }

  lemma TurnPasses(s: System)
    ensures Passes(s.supply, Turn(s).supply)
  {
    if Reads(s.engine) {
      PassesOne(s.supply, Turn(s).supply, Turn(s).supply.nextId - s.supply.nextId);
    } else {
      PassesNone(s.supply);
    }
  }

  lemma {:induction false} DrivePasses(s: System)
    ensures Passes(s.supply, Drive(s).supply)
    decreases |s.supply.tape|, Rank(s.engine, s.supply.last)
  {
    if s.engine.pc.Idle? {
      PassesNone(s.supply);
    } else {
      TurnProgresses(s);
      TurnPasses(s);
      DrivePasses(Turn(s));
      PassesThen(s.supply, Turn(s).supply, Drive(Turn(s)).supply);
    }
  }

  /** A reading, or none, and then the lock holder's steps. */
  lemma ReadThenDrive(s: System, u: System)
    requires u.supply == s.supply || u.supply == Driving.Read(s).supply
    ensures Passes(s.supply, Drive(u).supply)
  {
    if u.supply == s.supply {
      PassesNone(s.supply);
    } else {
      PassesOne(s.supply, u.supply, 0);
    }
    DrivePasses(u);
    PassesThen(s.supply, u.supply, Drive(u).supply);
  }

  lemma ToldPasses(s: System, rule: Rule, home: Home, raw: Geofence.TrackerState)
    ensures Passes(s.supply, Told(s, rule, home, raw).supply)
  {
    match Heard(home, raw, rule.id, s.engine.state)
    case None => PassesNone(s.supply);
    case Some(o) => ReadThenDrive(s, Sampling(s, o));
  }

  lemma RecoveredPasses(s: System)
    ensures Passes(s.supply, Recovered(s).supply)
  {
    ReadThenDrive(s, Lifting.Recovering(s));
  }

  // ----- lives -----

  /** Something that can happen to an engine leads from one system to the other. */
  ghost predicate Lives(a: System, b: System)
  {
    exists happenings: seq<Happening> :: b == Lived(a, happenings)
  }

  lemma {:induction false} LivedConcat(s: System, a: seq<Happening>, b: seq<Happening>)
    ensures Lived(s, a + b) == Lived(Lived(s, a), b)
    decreases |a|
  {
    if a == [] {
      assert a + b == b;
    } else {
      var u := LivedFirst(s, a);
      var v := LivedFirst(s, a + b);
      ConcatParts(a, b);
      LivedConcat(u, a[1..], b);
    }
  }

  lemma LivedFirst(s: System, a: seq<Happening>) returns (u: System)
    requires a != []
    ensures u == After(s, a[0]) && Lived(s, a) == Lived(u, a[1..])
  {
    u := After(s, a[0]);
  }

  lemma ConcatParts<T>(a: seq<T>, b: seq<T>)
    requires a != []
    ensures (a + b)[0] == a[0] && (a + b)[1..] == a[1..] + b
  {
  }

  lemma LivesThen(a: System, b: System, c: System)
    requires Lives(a, b) && Lives(b, c)
    ensures Lives(a, c)
  {
    var first: seq<Happening> :| b == Lived(a, first);
    var second: seq<Happening> :| c == Lived(b, second);
    LivedConcat(a, first, second);
    assert c == Lived(a, first + second);
  }

  lemma LivesOn(a: System)
    ensures Lives(a, a)
  {
    assert a == Lived(a, []);
  }

  lemma LivesOne(a: System, h: Happening)
    ensures Lives(a, After(a, h))
  {
    assert [h][1..] == [];
    assert After(a, h) == Lived(a, [h]);
  }

  lemma PassingLives(a: System, q: Supply)
    requires Passes(a.supply, q) && q.answers == a.supply.answers
    ensures Lives(a, a.(supply := q))
  {
    var r: nat, d: nat :| PassesBy(a.supply, r, d, q);
    LivesOne(a, Happening.Passing(r, d));
    assert After(a, Happening.Passing(r, d)) == a.(supply := q);
  }

  lemma ToldLives(s: System, rule: Rule, home: Home, raw: Geofence.TrackerState)
    ensures Lives(s, Told(s, rule, home, raw))
  {
    match Heard(home, raw, rule.id, s.engine.state)
    case None => LivesOn(s);
    case Some(o) => LivesOne(s, Called(Sampled(o)));
  }

  function Member(f: Fleet, k: nat): System
    requires k < |f.owned|
  {
    Whole(f.owned[k], f.shared)
  }

  /** When one engine has come to something, the others have lived on. */
  lemma TurnedLives(f: Fleet, k: nat, u: System, j: nat)
    requires k < |f.owned| && j < |f.owned|
    requires Lives(Member(f, k), u) && Passes(Member(f, k).supply, u.supply)
    ensures Lives(Member(f, j), Member(Turned(f, k, u), j))
  {
    var g := Turned(f, k, u);
    if j == k {
      assert Member(g, j) == u;
    } else {
      var (a, b) := (Member(f, j), Member(g, j));
      PassesAnyAnswers(Member(f, k).supply, u.supply, a.supply.answers, a.supply.answers);
      PassingLives(a, b.supply);
      assert b == a.(supply := b.supply);
    }
  }

  lemma TellLives(f: Fleet, k: nat, rule: Rule, home: Home, raw: Geofence.TrackerState, j: nat)
    requires k < |f.owned| && j < |f.owned|
    ensures Lives(Member(f, j), Member(Tell(f, k, rule, home, raw), j))
  {
    ToldLives(Member(f, k), rule, home, raw);
    ToldPasses(Member(f, k), rule, home, raw);
    TurnedLives(f, k, Told(Member(f, k), rule, home, raw), j);
  }

  /** The k-th engine's callback has the lock. */
  lemma FiredLives(f: Fleet, k: nat, generation: nat, j: nat)
    requires k < |f.owned| && j < |f.owned|
    ensures Lives(Member(f, j), Member(Fired(f, k, generation), j))
  {
    var s := Member(f, k);
    LivesOne(s, Called(CalledBack(generation)));
    ReadThenDrive(s, Operating(s, Fire(generation)));
    TurnedLives(f, k, Operate(s, Fire(generation)), j);
  }

  /** From each system to the next there is a life, so there is one from the first to the last. */
  lemma {:induction false} ChainLives(chain: seq<System>)
    requires chain != [] && forall i :: 0 <= i < |chain| - 1 ==> Lives(chain[i], chain[i + 1])
    ensures Lives(chain[0], chain[|chain| - 1])
  {
    if |chain| == 1 {
      LivesOn(chain[0]);
    } else {
      ChainLives(chain[..|chain| - 1]);
      LivesThen(chain[0], chain[|chain| - 2], chain[|chain| - 1]);
    }
  }

  lemma ProcessedStep(
    rules: seq<Rule>, n: nat, tracker: Id, home: Home, raw: Geofence.TrackerState, f: Fleet, j: nat)
    requires n < |rules| == |f.owned| && j < |rules|
    ensures
      Lives(Member(Processed(rules, n, tracker, home, raw, f), j),
            Member(Processed(rules, n + 1, tracker, home, raw, f), j))
  {
    var g := Processed(rules, n, tracker, home, raw, f);
    ProcessedMore(rules, n, tracker, home, raw, f);
    if rules[n].tracker == tracker {
      TellLives(g, n, rules[n], home, raw, j);
    } else {
      LivesOn(Member(g, j));
    }
  }

  lemma {:induction false} ProcessedChain(
    rules: seq<Rule>, n: nat, tracker: Id, home: Home, raw: Geofence.TrackerState, f: Fleet, j: nat)
    returns (chain: seq<System>)
    requires n <= |rules| == |f.owned| && j < |rules|
    ensures |chain| == n + 1 && chain[0] == Member(f, j)
    ensures chain[n] == Member(Processed(rules, n, tracker, home, raw, f), j)
    ensures forall i :: 0 <= i < n ==> Lives(chain[i], chain[i + 1])
    decreases n
  {
    if n == 0 {
      chain := [Member(f, j)];
    } else {
      var front := ProcessedChain(rules, n - 1, tracker, home, raw, f, j);
      ProcessedStep(rules, n - 1, tracker, home, raw, f, j);
      chain := Longer(front, Member(Processed(rules, n, tracker, home, raw, f), j));
    }
  }

  lemma Longer(chain: seq<System>, s: System) returns (longer: seq<System>)
    requires chain != [] && forall i :: 0 <= i < |chain| - 1 ==> Lives(chain[i], chain[i + 1])
    requires Lives(chain[|chain| - 1], s)
    ensures |longer| == |chain| + 1 && longer[0] == chain[0] && longer[|chain|] == s
    ensures forall i :: 0 <= i < |chain| ==> Lives(longer[i], longer[i + 1])
  {
    longer := chain + [s];
  }

  lemma ProcessedLives(
    rules: seq<Rule>, n: nat, tracker: Id, home: Home, raw: Geofence.TrackerState, f: Fleet, j: nat)
    requires n <= |rules| == |f.owned| && j < |rules|
    ensures Lives(Member(f, j), Member(Processed(rules, n, tracker, home, raw, f), j))
  {
    var chain := ProcessedChain(rules, n, tracker, home, raw, f, j);
    ChainLives(chain);
  }

  lemma SynchronizedStep(rules: seq<Rule>, trackers: seq<Id>, n: nat, home: Home, f: Fleet, j: nat)
    requires n < |trackers| && |rules| == |f.owned| && j < |rules|
    ensures
      Lives(Member(Synchronized(rules, trackers, n, home, f), j),
            Member(Synchronized(rules, trackers, n + 1, home, f), j))
  {
    var g := Synchronized(rules, trackers, n, home, f);
    SynchronizedMore(rules, trackers, n, home, f);
    if trackers[n] in home.states {
      ProcessedLives(rules, |rules|, trackers[n], home, home.states[trackers[n]], g, j);
    } else {
      LivesOn(Member(g, j));
    }
  }

  lemma {:induction false} SynchronizedChain(
    rules: seq<Rule>, trackers: seq<Id>, n: nat, home: Home, f: Fleet, j: nat) returns (chain: seq<System>)
    requires n <= |trackers| && |rules| == |f.owned| && j < |rules|
    ensures |chain| == n + 1 && chain[0] == Member(f, j)
    ensures chain[n] == Member(Synchronized(rules, trackers, n, home, f), j)
    ensures forall i :: 0 <= i < n ==> Lives(chain[i], chain[i + 1])
    decreases n
  {
    if n == 0 {
      chain := [Member(f, j)];
    } else {
      var front := SynchronizedChain(rules, trackers, n - 1, home, f, j);
      SynchronizedStep(rules, trackers, n - 1, home, f, j);
      chain := Longer(front, Member(Synchronized(rules, trackers, n, home, f), j));
    }
  }

  lemma SynchronizedLives(rules: seq<Rule>, trackers: seq<Id>, n: nat, home: Home, f: Fleet, j: nat)
    requires n <= |trackers| && |rules| == |f.owned| && j < |rules|
    ensures Lives(Member(f, j), Member(Synchronized(rules, trackers, n, home, f), j))
  {
    var chain := SynchronizedChain(rules, trackers, n, home, f, j);
    ChainLives(chain);
  }

  // ----- rebuilds -----

  /** The k-th engine of a rebuild, before it recovers. */
  function Beginning(rules: seq<Rule>, k: nat, setting: Setting, t: Tables, shared: Shared): System
    requires k < |rules|
  {
    NewbornOf(rules[k], setting, DiskOf(t, rules[k].id), Fleets.Recovering(rules, k, setting, t, shared).shared)
  }

  /** When a new engine has joined, the others have lived on. */
  lemma JoinedLives(f: Fleet, born: System, k: nat)
    requires k < |f.owned| && SharedBy(born) == f.shared
    ensures
      var u := Recovered(born);
      Lives(Member(f, k), Member(Fleet(f.owned + [Apart(u)], SharedBy(u)), k))
  {
    var u := Recovered(born);
    var (a, b) := (Member(f, k), Member(Fleet(f.owned + [Apart(u)], SharedBy(u)), k));
    RecoveredPasses(born);
    PassesAnyAnswers(born.supply, u.supply, a.supply.answers, a.supply.answers);
    PassingLives(a, b.supply);
    assert b == a.(supply := b.supply);
  }

  lemma RecoveringStep(rules: seq<Rule>, n: nat, setting: Setting, t: Tables, shared: Shared, k: nat)
    requires k < n < |rules|
    ensures
      Lives(Member(Fleets.Recovering(rules, n, setting, t, shared), k),
            Member(Fleets.Recovering(rules, n + 1, setting, t, shared), k))
  {
    RecoveringMore(rules, n, setting, t, shared);
    JoinedLives(Fleets.Recovering(rules, n, setting, t, shared), Beginning(rules, n, setting, t, shared), k);
  }

  lemma RecoveringFirst(rules: seq<Rule>, k: nat, setting: Setting, t: Tables, shared: Shared)
    requires k < |rules|
    ensures
      Recovered(Beginning(rules, k, setting, t, shared)) ==
      Member(Fleets.Recovering(rules, k + 1, setting, t, shared), k)
  {
    RecoveringMore(rules, k, setting, t, shared);
  }

  lemma {:induction false} RecoveringChain(
    rules: seq<Rule>, n: nat, setting: Setting, t: Tables, shared: Shared, k: nat) returns (chain: seq<System>)
    requires k < n <= |rules|
    ensures |chain| == n - k && chain[0] == Recovered(Beginning(rules, k, setting, t, shared))
    ensures chain[|chain| - 1] == Member(Fleets.Recovering(rules, n, setting, t, shared), k)
    ensures forall i :: 0 <= i < |chain| - 1 ==> Lives(chain[i], chain[i + 1])
    decreases n
  {
    if n == k + 1 {
      RecoveringFirst(rules, k, setting, t, shared);
      chain := [Recovered(Beginning(rules, k, setting, t, shared))];
    } else {
      var front := RecoveringChain(rules, n - 1, setting, t, shared, k);
      RecoveringStep(rules, n - 1, setting, t, shared, k);
      chain := Longer(front, Member(Fleets.Recovering(rules, n, setting, t, shared), k));
    }
  }

  lemma RecoveringLives(rules: seq<Rule>, n: nat, setting: Setting, t: Tables, shared: Shared, k: nat)
    requires k < n <= |rules|
    ensures
      Lives(Recovered(Beginning(rules, k, setting, t, shared)),
            Member(Fleets.Recovering(rules, n, setting, t, shared), k))
  {
    var chain := RecoveringChain(rules, n, setting, t, shared, k);
    ChainLives(chain);
  }

  function SupplyOf(p: Shared): Supply
  {
    Supply(p.tape, p.last, [], p.nextId)
  }

  lemma JoiningPasses(born: System)
    ensures Passes(SupplyOf(SharedBy(born)), SupplyOf(SharedBy(Recovered(born))))
  {
    var u := Recovered(born);
    RecoveredPasses(born);
    PassesAnyAnswers(born.supply, u.supply, [], []);
    assert SupplyOf(SharedBy(born)) == born.supply.(answers := []);
    assert SupplyOf(SharedBy(u)) == u.supply.(answers := []);
  }

  lemma {:induction false} RecoveringPasses(rules: seq<Rule>, n: nat, setting: Setting, t: Tables, shared: Shared)
    requires n <= |rules|
    ensures Passes(SupplyOf(shared), SupplyOf(Fleets.Recovering(rules, n, setting, t, shared).shared))
    decreases n
  {
    if n == 0 {
      PassesNone(SupplyOf(shared));
    } else {
      var p := Fleets.Recovering(rules, n - 1, setting, t, shared).shared;
      var born := Beginning(rules, n - 1, setting, t, shared);
      RecoveringPasses(rules, n - 1, setting, t, shared);
      RecoveringMore(rules, n - 1, setting, t, shared);
      JoiningPasses(born);
      PassesThen(SupplyOf(shared), SupplyOf(p), SupplyOf(SharedBy(Recovered(born))));
    }
  }

  lemma RebuiltLives(rules: seq<Rule>, setting: Setting, t: Tables, shared: Shared, k: nat)
    requires k < |rules|
    ensures
      Lives(Recovered(Beginning(rules, k, setting, t, shared)), Member(Rebuilt(rules, setting, t, shared), k))
  {
    var f := Fleets.Recovering(rules, |rules|, setting, t, shared);
    var trackers := Sorted(TrackersOf(rules));
    RebuiltIs(rules, setting, t, shared);
    RecoveringLives(rules, |rules|, setting, t, shared, k);
    SynchronizedLives(rules, trackers, |trackers|, setting.home, f, k);
    LivesThen(Recovered(Beginning(rules, k, setting, t, shared)), Member(f, k),
              Member(Rebuilt(rules, setting, t, shared), k));
  }

  // ----- what this means for the engines of a fleet -----

  /** The events lead to this engine, and in clock order if the readings to come were. */
  predicate LeadsTo(x: Watch, events: seq<Event>, clock: Time, p: Supply, s: System)
  {
    Pictures(FollowAll(x, events), s) && s.engine.pc.Idle? && (Timely(clock, p) ==> Ahead(clock, events, s))
  }

  /** The clock has not passed the readings to come, and they do not run backward. */
  predicate Timely(clock: Time, p: Supply)
  {
    Steady(p) && clock <= Reading(p.tape, p.last)
  }

  ghost predicate CanLeadTo(x: Watch, clock: Time, p: Supply, s: System)
  {
    exists events :: LeadsTo(x, events, clock, p, s)
  }

  lemma LifeLeads(x: Watch, a: System, b: System, clock: Time)
    requires Pictures(x, a) && a.engine.pc.Idle? && Lives(a, b)
    ensures CanLeadTo(x, clock, a.supply, b)
  {
    var happenings: seq<Happening> :| b == Lived(a, happenings);
    LifeIsRun(x, a, happenings);
    if Timely(clock, a.supply) {
      LifeIsForward(a, happenings, clock);
    }
    assert LeadsTo(x, LifeEvents(a, happenings), clock, a.supply, b);
  }

  /** A tracker state that reaches a fleet continues the run of each of its engines. */
  lemma ProcessedLeads(
    rules: seq<Rule>, tracker: Id, home: Home, raw: Geofence.TrackerState, f: Fleet, k: nat, x: Watch, clock: Time)
    requires |rules| == |f.owned| && k < |rules| && Pictures(x, Member(f, k)) && f.owned[k].engine.pc.Idle?
    ensures CanLeadTo(x, clock, Member(f, k).supply, Member(Processed(rules, |rules|, tracker, home, raw, f), k))
  {
    ProcessedLives(rules, |rules|, tracker, home, raw, f, k);
    LifeLeads(x, Member(f, k), Member(Processed(rules, |rules|, tracker, home, raw, f), k), clock);
  }

  /** A rebuild on the tables in which a run has ended, for want of an accepting engine, continues that
      run: with a start, the recovery, and the present state of the rule's tracker. */
  lemma RebuiltLeads(rules: seq<Rule>, setting: Setting, t: Tables, shared: Shared, k: nat, x: Watch, clock: Time)
    requires k < |rules| && Drained(x.world) && x.world.disk == DiskOf(t, rules[k].id)
    requires x.world.past.nextId <= shared.nextId
    ensures
      CanLeadTo(x, clock, SupplyOf(shared), Member(Rebuilt(rules, setting, t, shared), k))
  {
    var (born, b) := (Beginning(rules, k, setting, t, shared), Member(Rebuilt(rules, setting, t, shared), k));
    var (y, first) := (FollowAll(x, RecoveryEvents(born)), RecoveryEvents(born));
    RecoveringPasses(rules, k, setting, t, shared);
    BornLater(rules, k, setting, t, shared);
    RecoveredIsRun(x, born);
    if Timely(clock, SupplyOf(shared)) {
      RecoveredIsForward(born, clock);
    }
    RebuiltLives(rules, setting, t, shared, k);
    var now := EventsClock(clock, first);
    LifeLeads(y, Recovered(born), b, now);
    var events :| LeadsTo(y, events, now, Recovered(born).supply, b);
    FollowConcat(x, first, events);
    if Timely(clock, SupplyOf(shared)) {
      ForwardConcat(clock, first, events);
    }
    assert LeadsTo(x, first + events, clock, SupplyOf(shared), b);
  }

  lemma BornLater(rules: seq<Rule>, k: nat, setting: Setting, t: Tables, shared: Shared)
    requires k < |rules|
    ensures
      var born := Beginning(rules, k, setting, t, shared);
      && shared.nextId <= born.supply.nextId
      && (Steady(SupplyOf(shared)) ==>
            Steady(born.supply) && Reading(shared.tape, shared.last) <= NextReading(born))
  {
    RecoveringPasses(rules, k, setting, t, shared);
    var (p, q) := (SupplyOf(shared), SupplyOf(Fleets.Recovering(rules, k, setting, t, shared).shared));
    var r: nat, d: nat :| PassesBy(p, r, d, q);
    PassedDraws(p, r, d);
    if Steady(p) {
      PassedSteady(Beginning(rules, k, setting, t, shared).(supply := p), r, d);
    }
  }

  /** What a run in clock order has led to keeps every promise: memory and row agree, no pending transition
      is forgotten, and the journal is the greedy filter of the confirmed changes of presence. */
  lemma LedKeepsPromises(clock: Time, before: seq<Event>, events: seq<Event>, p: Supply, s: System)
    requires EventsForward(clock, before) && Timely(EventsClock(clock, before), p)
    requires LeadsTo(FollowAll(Watch(Genesis(), NO_ALARM), before), events, EventsClock(clock, before), p, s)
    ensures
      var w := Run(Genesis(), StepsIn(before + events));
      && w.engine == Some(s.engine) && w.disk == s.disk && InStep(s.engine, s.disk)
      && (s.engine.accepting && Pending(s.disk) ==> Covered(s.alarm, s.disk.row.value.pendingGeneration))
      && Refinement.Kept(w.past.journal, w.past.lifetime) == Refinement.Greedy(w.past.flips)
      && (s.disk.row.Some? ==>
            && w.past.baseline.Some?
            && s.disk.row.value.presence == Refinement.Folded(w.past.baseline.value, w.past.flips))
  {
    var (x, all) := (Watch(Genesis(), NO_ALARM), before + events);
    FollowConcat(x, before, events);
    ForwardConcat(clock, before, events);
    WorldSees(x, all);
    WorldSeesForward(clock, all);
    Reachable(StepsIn(all));
    NoLostWakeUp(all);
    Refinement.JournalRefinement(clock, StepsIn(all));
  }
}
