/** The drain protocol never gets stuck: once its engines are between two steps, every maintenance and every
    refresh can be carried through, and what each of its moves does to the installation. */
module Progress {
  import opened Models
  import opened Machine
  import opened Tables
  import opened Operations
  import opened Sites
  import opened Drain
  import opened Interruptions

  // ----- services -----

  /** A manual event, an exclusion or a restoration takes effect at once, in every phase, and touches nothing
      else; its identifier will not be drawn again. */
  lemma ServiceTakesEffect(s: Site, op: Operation)
    requires op.ChangeStatus? || (op.AddEvent? && op.event.ruleId.None? && op.id >= s.nextId)
    requires op.AddEvent? ==>
               && op.event.originalEventId.None? && op.event.status == Confirmed
               && op.event.updatedAt == op.event.createdAt
    ensures
      var u := NextSite(s, Service(op));
      && u.tables == Apply(s.tables, op) && u.runtimes == s.runtimes && u.phase == s.phase
      && u.nextId == if op.AddEvent? then op.id + 1 else s.nextId
  {
  }

  lemma Then(action: Action, rest: seq<Action>) returns (actions: seq<Action>)
    requires !action.Interrupt? && Uninterrupted(rest)
    ensures actions == [action] + rest && Uninterrupted(actions)
  {
    actions := [action] + rest;
  }

  /** A sample, a callback or a reading that reaches an engine from outside is a step of this engine, and its
      row is what the step leaves. */
  lemma InputTakesEffect(s: Site, k: nat, input: Input)
    requires Orderly(s) && k < |s.runtimes| && (input.Tick? ==> input.newId >= s.nextId)
    requires input.Ignored? || input.Sample? || input.Fire? || input.Tick? || input.Announce?
    ensures
      var (u, r) := (NextSite(s, Action.Handle(k, input)), RuleAt(s, k));
      var o := Machine.Step(s.runtimes[k].engine, DiskOf(s.tables, r), input);
      && u.phase == s.phase && |u.runtimes| == |s.runtimes| && u.runtimes[k].engine == o.engine
      && (forall j :: 0 <= j < |s.runtimes| && j != k ==> u.runtimes[j] == s.runtimes[j])
      && DiskOf(u.tables, r) == o.disk
  {
    if Accepts(s, k) {
      AcceptingWrites(s, k, input);
    } else {
      SuspendedIsInert(s, k, input);
      assert EngineKept(s.tables, s.runtimes[k]);
    }
  }

  /** Only an interrupted rebuild can break the order. */
  lemma {:induction false} UninterruptedIsHarmless(s: Site, actions: seq<Action>)
    requires Uninterrupted(actions)
    ensures AllHarmless(s, actions)
    decreases |actions|
  {
    if actions != [] {
      assert !actions[0].Interrupt?;
      UninterruptedIsHarmless(NextSite(s, actions[0]), actions[1..]);
    }
  }

  // ----- suspending -----

  /** These engines are between two steps. */
  predicate Resting(s: Site, engines: set<nat>)
  {
    forall k :: k in engines ==> k < |s.runtimes| && s.runtimes[k].engine.pc.Idle?
  }

  /** The same engines, apart from what they have come to. */
  predicate SameRuntimes(s: Site, u: Site)
  {
    |u.runtimes| == |s.runtimes|
    && forall j :: 0 <= j < |s.runtimes| ==> u.runtimes[j].resources == s.runtimes[j].resources
  }

  lemma SameRuntimesBoth(s: Site, u: Site, v: Site)
    requires SameRuntimes(s, u) && SameRuntimes(u, v)
    ensures SameRuntimes(s, v)
  {
  }

  lemma SuspendedOne(s: Site, k: nat)
    requires Orderly(s) && s.phase.Stopping? && k in s.phase.todo && Resting(s, s.phase.todo)
    ensures
      var u := NextSite(s, SuspendNext(k));
      && u.tables == s.tables && u.phase == Stopping(s.phase.todo - {k}, s.phase.stopped + {k}, s.phase.goal)
      && SameRuntimes(s, u)
      && (forall j :: 0 <= j < |s.runtimes| ==>
            u.runtimes[j].engine == if j == k then s.runtimes[k].engine.(accepting := false) else s.runtimes[j].engine)
      && Resting(u, s.phase.todo - {k})
  {
    WrittenBackSame(s.tables, RuleAt(s, k), StepOf(s, k, Suspend));
  }

  lemma SuspendStep(s: Site, k: nat) returns (u: Site)
    requires Orderly(s) && s.phase.Stopping? && k in s.phase.todo && Resting(s, s.phase.todo)
    ensures Orderly(u) && u.tables == s.tables && SameRuntimes(s, u)
    ensures u.phase == Stopping(s.phase.todo - {k}, s.phase.stopped + {k}, s.phase.goal) && Resting(u, u.phase.todo)
    ensures forall rest :: RunSite(s, [SuspendNext(k)] + rest) == RunSite(u, rest)
  {
    u := NextSite(s, SuspendNext(k));
    SuspendedOne(s, k);
    SuspendKeeps(s, k);
    forall rest ensures RunSite(s, [SuspendNext(k)] + rest) == RunSite(u, rest) {
      RunSiteCons(s, SuspendNext(k), rest);
    }
  }

  /** All engines are suspended, whatever the manager drains them for; the tables stay as they are. */
  lemma {:induction false} SuspendAll(s: Site) returns (actions: seq<Action>)
    requires Orderly(s) && s.phase.Stopping? && Resting(s, s.phase.todo)
    ensures Uninterrupted(actions)
    ensures
      var u := RunSite(s, actions);
      && u.tables == s.tables && SameRuntimes(s, u)
      && u.phase == Stopping({}, s.phase.stopped + s.phase.todo, s.phase.goal)
    decreases |s.phase.todo|
  {
    if s.phase.todo == {} {
      actions := [];
      assert s.phase.stopped + s.phase.todo == s.phase.stopped;
    } else {
      var k :| k in s.phase.todo;
      var u := SuspendStep(s, k);
      var rest := SuspendAll(u);
      actions := Then(SuspendNext(k), rest);
      SameRuntimesBoth(s, u, RunSite(u, rest));
      assert s.phase.stopped + {k} + (s.phase.todo - {k}) == s.phase.stopped + s.phase.todo;
    }
  }

  // ----- building -----

  /** Resources, events and revisions are the same, and the same rules have a row. */
  predicate SameJournal(t: Tables, u: Tables)
  {
    SameResources(t, u) && u.events == t.events && u.revisions == t.revisions && u.rows.Keys == t.rows.Keys
  }

  lemma SameJournalBoth(t: Tables, u: Tables, v: Tables)
    requires SameJournal(t, u) && SameJournal(u, v)
    ensures SameJournal(t, v)
  {
  }

  lemma BuiltNext(s: Site, r: Id, now: Time)
    requires Orderly(s) && s.phase.Building? && r in s.phase.linkages
    ensures
      var u := NextSite(s, Build(r, now));
      && u.phase == Building(s.phase.linkages - {r}, s.phase.built + {|s.runtimes|})
      && SameJournal(s.tables, u.tables)
      && |u.runtimes| == |s.runtimes| + 1 && u.runtimes[..|s.runtimes|] == s.runtimes
      && u.runtimes[|s.runtimes|].resources == s.phase.linkages[r]
      && u.runtimes[|s.runtimes|].engine.rule == s.phase.linkages[r].rule
      && u.runtimes[|s.runtimes|].engine.accepting
  {
    RecoveryGrounded(s, s.phase.linkages[r], now);
    RecoveryRow(s, s.phase.linkages[r], now);
  }

  lemma RecoveryRow(s: Site, c: ConfiguredResources, now: Time)
    requires Grounded(s) && Linkage(s.tables, c)
    ensures SameJournal(s.tables, WrittenBack(s.tables, c.rule.id, Recovery(s, c, now)))
  {
    LinkagePlaced(s.tables, c);
    RowIsOwned(s.tables, c.rule);
  }

  lemma BuildStep(s: Site, r: Id, now: Time) returns (u: Site)
    requires Orderly(s) && s.phase.Building? && r in s.phase.linkages
    ensures Orderly(u) && u.phase.Building? && |u.phase.linkages| < |s.phase.linkages|
    ensures SameJournal(s.tables, u.tables)
    ensures forall rest :: RunSite(s, [Build(r, now)] + rest) == RunSite(u, rest)
  {
    u := NextSite(s, Build(r, now));
    BuiltNext(s, r, now);
    BuildKeeps(s, r, now);
    Smaller(s.phase.linkages, r);
    forall rest ensures RunSite(s, [Build(r, now)] + rest) == RunSite(u, rest) {
      RunSiteCons(s, Build(r, now), rest);
    }
  }

  /** All linkages get an engine; no event and no revision changes. */
  lemma {:induction false} BuildRest(s: Site, now: Time) returns (actions: seq<Action>)
    requires Orderly(s) && s.phase.Building?
    ensures Uninterrupted(actions)
    ensures
      var u := RunSite(s, actions);
      u.phase.Building? && u.phase.linkages == map[] && SameJournal(s.tables, u.tables)
    decreases |s.phase.linkages|
  {
    if s.phase.linkages == map[] {
      actions := [];
    } else {
      var r :| r in s.phase.linkages;
      var u := BuildStep(s, r, now);
      var rest := BuildRest(u, now);
      actions := Then(Build(r, now), rest);
      SameJournalBoth(s.tables, u.tables, RunSite(u, rest).tables);
    }
  }

  lemma Smaller<K, V>(m: map<K, V>, k: K)
    requires k in m
    ensures |m - {k}| < |m|
  {
    assert (m - {k}).Keys == m.Keys - {k} && |(m - {k}).Keys| == |m - {k}| && |m.Keys| == |m|;
  }

  // ----- whole cycles -----

  /** The manager serves again: every active linkage has exactly one accepting engine. */
  ghost predicate Serving(s: Site)
  {
    && s.phase.Running?
    && forall r :: r in ActiveResources(s.tables) ==>
         exists k: nat :: ServedBy(s, k, r) && forall j: nat :: ServedBy(s, j, r) ==> j == k
  }

  lemma AttentiveServes(s: Site)
    requires Orderly(s) && Attentive(s) && s.phase.Running?
    ensures Serving(s)
  {
    forall r | r in ActiveResources(s.tables)
      ensures exists k: nat :: ServedBy(s, k, r) && forall j: nat :: ServedBy(s, j, r) ==> j == k
    {
      assert Served(s, r);
      var k: nat :| ServedBy(s, k, r);
      assert forall j: nat :: ServedBy(s, j, r) ==> j == k;
    }
  }

  /** From a rebuild to service. */
  lemma RebuildCompletes(s: Site, now: Time) returns (actions: seq<Action>)
    requires Orderly(s) && Attentive(s) && s.phase.Building?
    ensures Uninterrupted(actions)
    ensures
      var u := RunSite(s, actions);
      Serving(u) && SameJournal(s.tables, u.tables)
  {
    var builds := BuildRest(s, now);
    var v := RunSite(s, builds);
    actions := builds + [Built];
    RunSiteConcat(s, builds, [Built]);
    RunSiteCons(v, Built, []);
    assert [Built] + [] == [Built];
    AttentiveRun(s, actions);
    AttentiveServes(RunSite(s, actions));
  }

  /** Every maintenance completes: from a serving manager whose engines are between two steps there is a
      course of the protocol that drains them, performs the operation while no engine accepts, and serves
      again what the operation has left. */
  lemma MaintenanceCompletes(s: Site, op: Operation, now: Time) returns (before: seq<Action>, after: seq<Action>)
    requires Orderly(s) && Attentive(s) && s.phase.Running? && Resting(s, s.phase.current)
    requires op.Purge? || op.Reset? || op.UpsertTracker? || op.UpsertPlace? || op.UpsertJournal? || op.UpsertRule?
    ensures Uninterrupted(before) && Uninterrupted(after)
    ensures
      var v := RunSite(s, before);
      v.phase.Paused? && v.tables == s.tables && forall k: nat :: !Accepts(v, k)
    ensures
      var u := RunSite(s, before + ([Maintain(op)] + after));
      var t := Apply(s.tables, op);
      Serving(u) && SameJournal(t, u.tables)
  {
    before := PauseCompletes(s);
    var v := RunSite(s, before);
    var w := NextSite(v, Maintain(op));
    AttentiveRun(s, before);
    OrderlyNext(v, Maintain(op));
    AttentiveNext(v, Maintain(op));
    assert w.tables == Apply(s.tables, op) && w.phase.Paused?;
    var x := NextSite(w, Resume);
    OrderlyNext(w, Resume);
    AttentiveNext(w, Resume);
    assert x.phase.Building? && x.tables == w.tables;
    var rest := RebuildCompletes(x, now);
    after := [Resume] + rest;
    RunSiteCons(w, Resume, rest);
    RunSiteCons(v, Maintain(op), after);
    RunSiteConcat(s, before, [Maintain(op)] + after);
  }

  lemma PauseCompletes(s: Site) returns (actions: seq<Action>)
    requires Orderly(s) && Attentive(s) && s.phase.Running? && Resting(s, s.phase.current)
    ensures Uninterrupted(actions)
    ensures
      var u := RunSite(s, actions);
      u.phase.Paused? && u.tables == s.tables && forall k: nat :: !Accepts(u, k)
  {
    actions := DrainCompletes(s, Goal.Pause);
    AttentiveRun(s, actions);
    var u := RunSite(s, actions);
    assert u.phase.Paused? && forall k: nat :: Accepts(u, k) ==> Tended(u.phase, k);
  }

  /** Those of these engines whose rule is not active any more. */
  function Unserved(s: Site, engines: set<nat>): set<nat>
  {
    set k | k in engines && k < |s.runtimes| && RuleAt(s, k) !in ActiveResources(s.tables)
  }

  /** Whatever the engines are drained for, all of them are. */
  lemma DrainCompletes(s: Site, goal: Goal) returns (actions: seq<Action>)
    requires Orderly(s) && s.phase.Running? && Resting(s, s.phase.current)
    ensures Uninterrupted(actions)
    ensures
      var u := RunSite(s, actions);
      && u.tables == s.tables && SameRuntimes(s, u)
      && match goal
         case Pause => u.phase.Paused?
         case Stop => u.phase.Closed?
         case Refresh => u.phase == Retiring(Unserved(s, s.phase.current), ActiveResources(s.tables))
  {
    var v := NextSite(s, Request(goal));
    OrderlyNext(s, Request(goal));
    var stops := SuspendAll(v);
    var w := RunSite(v, stops);
    actions := [Request(goal)] + (stops + [Stopped]);
    RunSiteCons(s, Request(goal), stops + [Stopped]);
    RunSiteConcat(v, stops, [Stopped]);
    RunSiteCons(w, Stopped, []);
    assert [Stopped] + [] == [Stopped];
    StoppedMove(s, w, goal);
  }

  lemma StoppedMove(s: Site, w: Site, goal: Goal)
    requires s.phase.Running? && Resting(s, s.phase.current) && SameRuntimes(s, w)
    requires w.tables == s.tables && w.phase == Stopping({}, s.phase.current, goal)
    ensures
      var u := NextSite(w, Stopped);
      && u == w.(phase := u.phase)
      && match goal
         case Pause => u.phase.Paused?
         case Stop => u.phase.Closed?
         case Refresh => u.phase == Retiring(Unserved(s, s.phase.current), ActiveResources(s.tables))
  {
    if goal.Refresh? {
      assert NextSite(w, Stopped).phase.todo == Unserved(s, s.phase.current);
    }
  }

  // ----- refreshes -----

  lemma RetiredNext(s: Site, k: nat)
    requires Orderly(s) && s.phase.Retiring? && k in s.phase.todo && k < |s.runtimes|
    ensures
      var u := NextSite(s, RetireNext(k));
      && u.tables == s.tables.(rows := s.tables.rows - {RuleAt(s, k)})
      && u.phase == Retiring(s.phase.todo - {k}, s.phase.resources) && |u.runtimes| == |s.runtimes|
      && forall j :: 0 <= j < |s.runtimes| ==> RuleAt(u, j) == RuleAt(s, j)
  {
    assert EngineKept(s.tables, s.runtimes[k]) && !Tended(s.phase, k) && !Accepts(s, k);
    ErasedStep(s.runtimes[k].engine, DiskOf(s.tables, RuleAt(s, k)));
  }

  /** The rules that these engines serve or have served. */
  function RulesOf(s: Site, engines: set<nat>): set<Id>
  {
    set k | k in engines && k < |s.runtimes| :: RuleAt(s, k)
  }

  /** The rows of these engines' rules are deleted, and nothing else. */
  lemma {:induction false} RetireAll(s: Site) returns (actions: seq<Action>)
    requires Orderly(s) && Attentive(s) && s.phase.Retiring? && forall k :: k in s.phase.todo ==> k < |s.runtimes|
    ensures Uninterrupted(actions)
    ensures
      var u := RunSite(s, actions);
      u.phase == Retiring({}, s.phase.resources) && u.tables == WithoutRows(s.tables, RulesOf(s, s.phase.todo))
    decreases |s.phase.todo|
  {
    if s.phase.todo == {} {
      actions := [];
      assert RulesOf(s, {}) == {} && s.tables.rows - {} == s.tables.rows;
    } else {
      var k :| k in s.phase.todo;
      var u := NextSite(s, RetireNext(k));
      RetiredNext(s, k);
      RetireKeeps(s, k);
      AttentiveNext(s, RetireNext(k));
      var rest := RetireAll(u);
      actions := [RetireNext(k)] + rest;
      RunSiteCons(s, RetireNext(k), rest);
      RetiredRows(s, u, k);
    }
  }

  function WithoutRows(t: Tables, rules: set<Id>): Tables
  {
    t.(rows := t.rows - rules)
  }

  lemma RetiredRows(s: Site, u: Site, k: nat)
    requires s.phase.Retiring? && k in s.phase.todo && k < |s.runtimes| == |u.runtimes|
    requires u.tables == WithoutRows(s.tables, {RuleAt(s, k)})
    requires forall j :: 0 <= j < |s.runtimes| ==> RuleAt(u, j) == RuleAt(s, j)
    ensures
      WithoutRows(u.tables, RulesOf(u, s.phase.todo - {k})) == WithoutRows(s.tables, RulesOf(s, s.phase.todo))
  {
    assert RulesOf(s, s.phase.todo) == RulesOf(u, s.phase.todo - {k}) + {RuleAt(s, k)};
  }

  /** Every refresh completes: the engines are drained, exactly the rows of those that no linkage names any
      more are deleted, and the active linkages are served by new engines. */
  lemma RefreshCompletes(s: Site, now: Time) returns (actions: seq<Action>)
    requires Orderly(s) && Attentive(s) && s.phase.Running? && Resting(s, s.phase.current)
    ensures Uninterrupted(actions)
    ensures
      var (u, unserved) := (RunSite(s, actions), Unserved(s, s.phase.current));
      Serving(u) && SameJournal(WithoutRows(s.tables, RulesOf(s, unserved)), u.tables)
  {
    var unserved := Unserved(s, s.phase.current);
    var drain := DrainCompletes(s, Goal.Refresh);
    AttentiveRun(s, drain);
    var x := RunSite(s, drain);
    assert RulesOf(x, unserved) == RulesOf(s, unserved);
    var rest := RetirementCompletes(x, now);
    actions := drain + rest;
    RunSiteConcat(s, drain, rest);
  }

  lemma RetirementCompletes(s: Site, now: Time) returns (actions: seq<Action>)
    requires Orderly(s) && Attentive(s) && s.phase.Retiring? && forall k :: k in s.phase.todo ==> k < |s.runtimes|
    ensures Uninterrupted(actions)
    ensures
      var u := RunSite(s, actions);
      Serving(u) && SameJournal(WithoutRows(s.tables, RulesOf(s, s.phase.todo)), u.tables)
  {
    var retires := RetireAll(s);
    AttentiveRun(s, retires);
    var y := RunSite(s, retires);
    var z := NextSite(y, Rebuild);
    OrderlyNext(y, Rebuild);
    AttentiveNext(y, Rebuild);
    assert z.phase.Building? && z.tables == y.tables;
    var rest := RebuildCompletes(z, now);
    actions := retires + ([Rebuild] + rest);
    RunSiteConcat(s, retires, [Rebuild] + rest);
    RunSiteCons(y, Rebuild, rest);
  }
}
