/** Rebuilds that a storage error ends early: when they break the drain protocol, and how. */
module Interruptions {
  import opened Models
  import opened Tables
  import opened Operations
  import opened Sites
  import opened Drain

  /** The order survives an interrupted rebuild exactly when nothing had been built. */
  lemma InterruptExactly(s: Site)
    requires Orderly(s) && s.phase.Building? && s.phase.linkages != map[]
    ensures Orderly(NextSite(s, Interrupt)) <==> s.phase.built == {}
  {
    var u := NextSite(s, Interrupt);
    if s.phase.built != {} {
      var k :| k in s.phase.built;
      assert Tended(s.phase, k);
      assert Accepts(s, k) && Accepts(u, k) && !Tended(u.phase, k);
    } else {
      assert forall k: nat :: Accepts(u, k) ==> Accepts(s, k);
    }
  }

  /** Otherwise the next drain overlooks the engine and builds a second one for the same rule. */
  lemma InterruptedRebuildDoubles(s: Site, k: nat, now: Time)
    requires Orderly(s) && s.phase.Building? && s.phase.linkages != map[] && Accepts(s, k)
    ensures
      var u := RunSite(s, [Interrupt, Request(Pause), Stopped, Resume, Build(RuleAt(s, k), now)]);
      && Accepts(u, k) && Accepts(u, |s.runtimes|) && RuleAt(u, k) == RuleAt(u, |s.runtimes|)
      && u.runtimes[k] == s.runtimes[k]
  {
    var resumed := Rebuilding(s);
    RunFive(s, Interrupt, Request(Pause), Stopped, Resume, Build(RuleAt(s, k), now));
    DrainAgain(s);
    BuiltAgain(resumed, k, now);
  }

  lemma BuiltAgain(s: Site, k: nat, now: Time)
    requires s.phase == Building(ActiveResources(s.tables), {})
    requires Grounded(s) && Accepts(s, k) && EngineKept(s.tables, s.runtimes[k])
    ensures
      var (u, n) := (NextSite(s, Build(RuleAt(s, k), now)), |s.runtimes|);
      Accepts(u, k) && Accepts(u, n) && RuleAt(u, k) == RuleAt(u, n) && u.runtimes[k] == s.runtimes[k]
  {
    ActiveIds(s.tables);
    LinkagePlaced(s.tables, s.runtimes[k].resources);
  }

  lemma DrainAgain(s: Site)
    requires s.phase.Building? && s.phase.linkages != map[]
    ensures
      NextSite(NextSite(NextSite(NextSite(s, Interrupt), Request(Pause)), Stopped), Resume) == Rebuilding(s)
  {
  }

  lemma RunFive(s: Site, a: Action, b: Action, c: Action, d: Action, e: Action)
    ensures RunSite(s, [a, b, c, d, e]) == NextSite(NextSite(NextSite(NextSite(NextSite(s, a), b), c), d), e)
  {
    RunSiteCons(s, a, [b, c, d, e]);
    var s1 := NextSite(s, a);
    RunSiteCons(s1, b, [c, d, e]);
    var s2 := NextSite(s1, b);
    RunSiteCons(s2, c, [d, e]);
    var s3 := NextSite(s2, c);
    RunSiteCons(s3, d, [e]);
    var s4 := NextSite(s3, d);
    RunSiteCons(s4, e, []);
    assert [a, b, c, d, e] == [a] + [b, c, d, e];
    assert [b, c, d, e] == [b] + [c, d, e];
    assert [c, d, e] == [c] + [d, e];
    assert [d, e] == [d] + [e];
    assert [e] == [e] + [];
  }

  lemma RunSiteCons(s: Site, action: Action, rest: seq<Action>)
    ensures RunSite(s, [action] + rest) == RunSite(NextSite(s, action), rest)
  {
  }

  // ----- it does happen -----

  /** Two rules that follow the same tracker around the same place into the same journal. */
  function Twin(id: Id): Rule
  {
    Rule(id, 0, 0, 0, true, 0, 0, 0)
  }

  const TWINS := [
    UpsertTracker(0, Resource("tracker", true)),
    UpsertPlace(0, Resource("place", true)),
    UpsertJournal(0, Resource("journal", true)),
    UpsertRule(Twin(0)),
    UpsertRule(Twin(1))]

  function TwinTables(): Tables
  {
    Emptied().(
      trackers := map[0 := Resource("tracker", true)],
      places := map[0 := Resource("place", true)],
      journals := map[0 := Resource("journal", true)],
      rules := map[0 := Twin(0), 1 := Twin(1)])
  }

  const STARTED := [Open, Built, Request(Pause), Stopped]

  const CONFIGURED := [
    Maintain(TWINS[0]), Maintain(TWINS[1]), Maintain(TWINS[2]), Maintain(TWINS[3]), Maintain(TWINS[4])]

  const REBUILDING := [Resume, Build(0, 0)]

  /** The program starts on an empty database, a maintenance scope configures the two rules, and the
      rebuild after it gets as far as the first of them. */
  function HalfRebuilt(): seq<Action>
  {
    STARTED + (CONFIGURED + REBUILDING)
  }

  lemma {:induction false} RunSiteConcat(s: Site, a: seq<Action>, b: seq<Action>)
    ensures RunSite(s, a + b) == RunSite(RunSite(s, a), b)
    decreases |a|
  {
    if a == [] {
      assert a + b == b;
    } else {
      RunSiteConcat(NextSite(s, a[0]), a[1..], b);
      assert (a + b)[1..] == a[1..] + b;
    }
  }

  lemma StartedRun(source: Source, storeCoordinates: bool)
    ensures
      RunSite(Installed(source, storeCoordinates), STARTED) == Installed(source, storeCoordinates).(phase := Paused)
  {
    var s := Installed(source, storeCoordinates);
    assert ActiveResources(Emptied()) == map[];
    var building := s.(phase := Building(map[], {}));
    assert NextSite(s, Open) == building;
    var running := s.(phase := Running({}));
    assert NextSite(building, Built) == running;
    var stopping := s.(phase := Stopping({}, {}, Pause));
    assert NextSite(running, Request(Pause)) == stopping;
    assert NextSite(stopping, Stopped) == s.(phase := Paused);
    RunSiteCons(s, Open, [Built, Request(Pause), Stopped]);
    RunSiteCons(building, Built, [Request(Pause), Stopped]);
    RunSiteCons(running, Request(Pause), [Stopped]);
    RunSiteCons(stopping, Stopped, []);
    assert STARTED == [Open] + [Built, Request(Pause), Stopped];
    assert [Built, Request(Pause), Stopped] == [Built] + [Request(Pause), Stopped];
    assert [Request(Pause), Stopped] == [Request(Pause)] + [Stopped];
    assert [Stopped] == [Stopped] + [];
  }

  lemma Upserted(s: Site, op: Operation)
    requires s.phase.Paused? && IsMaintenance(op)
    ensures NextSite(s, Maintain(op)) == s.(tables := Apply(s.tables, op))
  {
  }

  lemma ConfiguredRun(s: Site)
    requires s.phase.Paused? && s.tables == Emptied()
    ensures RunSite(s, CONFIGURED) == s.(tables := TwinTables())
  {
    var a := Apply(s.tables, TWINS[0]);
    var b := Apply(a, TWINS[1]);
    var c := Apply(b, TWINS[2]);
    var d := Apply(c, TWINS[3]);
    var e := Apply(d, TWINS[4]);
    assert e == TwinTables();
    Upserted(s, TWINS[0]);
    Upserted(s.(tables := a), TWINS[1]);
    Upserted(s.(tables := b), TWINS[2]);
    Upserted(s.(tables := c), TWINS[3]);
    Upserted(s.(tables := d), TWINS[4]);
    RunFive(s, Maintain(TWINS[0]), Maintain(TWINS[1]), Maintain(TWINS[2]), Maintain(TWINS[3]), Maintain(TWINS[4]));
  }

  lemma RebuildingRun(s: Site)
    requires s.phase.Paused? && s.tables == TwinTables() && s.runtimes == []
    ensures
      var u := RunSite(s, REBUILDING);
      u.phase.Building? && 1 in u.phase.linkages && u.phase.built == {0} && |u.runtimes| == 1
      && u.runtimes[0].engine.accepting && u.runtimes[0].resources.rule == Twin(0)
  {
    var resumed := Rebuilding(s);
    assert 0 in ActiveResources(s.tables) && 1 in ActiveResources(s.tables);
    ResumeMove(s);
    RunSiteCons(s, Resume, [Build(0, 0)]);
    RunSiteCons(resumed, Build(0, 0), []);
    assert REBUILDING == [Resume] + [Build(0, 0)];
    assert [Build(0, 0)] == [Build(0, 0)] + [];
  }

  lemma ResumeMove(s: Site)
    requires s.phase.Paused?
    ensures NextSite(s, Resume) == Rebuilding(s)
  {
  }

  lemma HalfRebuiltRun(source: Source, storeCoordinates: bool)
    ensures
      var s := RunSite(Installed(source, storeCoordinates), HalfRebuilt());
      && s.phase.Building? && 1 in s.phase.linkages && s.phase.built == {0}
      && Accepts(s, 0) && RuleAt(s, 0) == 0 && |s.runtimes| == 1
  {
    var installed := Installed(source, storeCoordinates);
    var paused := installed.(phase := Paused);
    RunSiteConcat(installed, STARTED, CONFIGURED + REBUILDING);
    StartedRun(source, storeCoordinates);
    RunSiteConcat(paused, CONFIGURED, REBUILDING);
    ConfiguredRun(paused);
    RebuildingRun(paused.(tables := TwinTables()));
  }

  lemma HalfRebuiltIsOrderly(source: Source, storeCoordinates: bool)
    ensures Orderly(RunSite(Installed(source, storeCoordinates), HalfRebuilt()))
  {
    AttentiveRun(Installed(source, storeCoordinates), HalfRebuilt());
  }

  /** From a fresh installation there is a run without any other fault after which a storage error
      breaks the order, and one rule ends up with two accepting engines. */
  lemma TwoEnginesHappen(source: Source, storeCoordinates: bool)
    ensures
      var s := RunSite(Installed(source, storeCoordinates), HalfRebuilt());
      s.phase.Building? && s.phase.linkages != map[] && Orderly(s) && !Orderly(NextSite(s, Interrupt))
    ensures
      var u := RunSite(Installed(source, storeCoordinates),
                       HalfRebuilt() + [Interrupt, Request(Pause), Stopped, Resume, Build(0, 0)]);
      Accepts(u, 0) && Accepts(u, 1) && RuleAt(u, 0) == RuleAt(u, 1) == 0
  {
    var installed := Installed(source, storeCoordinates);
    var s := RunSite(installed, HalfRebuilt());
    HalfRebuiltRun(source, storeCoordinates);
    HalfRebuiltIsOrderly(source, storeCoordinates);
    InterruptExactly(s);
    InterruptedRebuildDoubles(s, 0, 0);
    RunSiteConcat(installed, HalfRebuilt(), [Interrupt, Request(Pause), Stopped, Resume, Build(0, 0)]);
  }
}
