/** Every rule's part of every run of the whole installation is a run of its world, so what
    holds of every world holds of the installation. */
module Projections {
  import opened Wrappers
  import opened Models
  import opened RuntimeStates
  import opened Machine
  import opened Worlds
  import opened Tables
  import opened Operations
  import opened Sites
  import opened Drain

  predicate Serves(s: Site, k: nat, r: Id)
  {
    Accepts(s, k) && RuleAt(s, k) == r
  }

  /** What an action of the installation is for one rule: one step of its world, or none. */
  function Part(s: Site, action: Action, r: Id): seq<Worlds.Step>
  {
    match (action, s.phase)
    case (Handle(k, input), _) => if Serves(s, k, r) && FromOutside(s, input) then [On(input)] else []
    case (SuspendNext(k), Stopping(todo, _, _)) =>
      if k in todo && Serves(s, k, r) && s.runtimes[k].engine.pc.Idle? then [On(Suspend)] else []
    case (RetireNext(k), Retiring(todo, _)) =>
      if k in todo && k < |s.runtimes| && s.runtimes[k].engine.pc.Idle? && RuleAt(s, k) == r then [Wipe({})] else []
    case (Maintain(Purge(before, journal)), Paused) =>
      [PurgeStep(DiskOf(s.tables, r), DiskOf(Apply(s.tables, Operation.Purge(before, journal)), r))]
    case (Maintain(Reset), Paused) => [Wipe(DiskOf(s.tables, r).keys)]
    case (Build(q, now), Building(linkages, _)) =>
      if q in linkages && q == r then [Start(linkages[r].rule, s.source, s.storeCoordinates, now)] else []
    case (Die, _) => [Crash]
    case _ => []
  }

  function Parts(s: Site, actions: seq<Action>, r: Id): seq<Worlds.Step>
    decreases |actions|
  {
    if actions == [] then [] else Part(s, actions[0], r) + Parts(NextSite(s, actions[0]), actions[1..], r)
  }

  // ----- the picture of one rule -----

  /** The event is as it was committed, up to its status. */
  predicate Chronicles(entry: Entry, id: Id, e: LocationEvent)
  {
    entry.id == id && entry.event == e.(status := entry.event.status, updatedAt := entry.event.updatedAt)
  }

  predicate Chronicled(h: History, id: Id, e: LocationEvent)
  {
    exists k :: 0 <= k < |h.journal| && Chronicles(h.journal[k], id, e)
  }

  /** Every automatic event of the rule that the database retains was committed in its history. */
  predicate Retained(t: Tables, r: Id, h: History)
  {
    forall id :: id in t.events && t.events[id].ruleId == Some(r) ==> Chronicled(h, id, t.events[id])
  }

  ghost predicate Attended(s: Site, r: Id, w: World)
  {
    && (forall k: nat :: Serves(s, k, r) ==> w.engine == Some(s.runtimes[k].engine))
    && ((forall k: nat :: !Serves(s, k, r)) ==> Drained(w))
  }

  ghost predicate Shows(s: Site, r: Id, w: World)
  {
    && w.disk == DiskOf(s.tables, r)
    && w.past.nextId <= s.nextId
    && Attended(s, r, w)
    && Retained(s.tables, r, w.past)
  }

  // ----- engine steps -----

  lemma RecordKeepsJournal(h: History, effect: Effect, id: Id, e: LocationEvent)
    ensures Chronicled(h, id, e) ==> Chronicled(Record(h, effect), id, e)
  {
    if Chronicled(h, id, e) {
      var k :| 0 <= k < |h.journal| && Chronicles(h.journal[k], id, e);
      assert Record(h, effect).journal[k] == h.journal[k];
    }
  }

  lemma AppendedChronicled(h: History, o: Outcome, r: Id, id: Id, e: LocationEvent)
    requires o.effect.Committed? && id == o.effect.transition.eventId && e == EventOf(o.effect.transition)
    ensures Chronicled(Record(h, o.effect), id, e)
  {
    assert Chronicles(Record(h, o.effect).journal[|h.journal|], id, e);
  }

  lemma WrittenEvent(t: Tables, rule: Rule, o: Outcome, id: Id)
    requires Writes(rule, DiskOf(t, rule.id), o) && id in WrittenBack(t, rule.id, o).events
    ensures
      var e := WrittenBack(t, rule.id, o).events[id];
      if o.effect.Committed? && id == o.effect.transition.eventId then
        e == EventOf(o.effect.transition) && e.ruleId == Some(rule.id)
      else
        id in t.events && e == t.events[id]
  {
  }

  /** Writing back a step adds its event, if any, to the database and to the history alike. */
  lemma WriteRetained(t: Tables, rule: Rule, o: Outcome, r: Id, h: History)
    requires Retained(t, r, h) && Writes(rule, DiskOf(t, rule.id), o)
    ensures Retained(WrittenBack(t, rule.id, o), r, if rule.id == r then Record(h, o.effect) else h)
  {
    var u := WrittenBack(t, rule.id, o);
    var h' := if rule.id == r then Record(h, o.effect) else h;
    forall id | id in u.events && u.events[id].ruleId == Some(r) ensures Chronicled(h', id, u.events[id]) {
      WrittenEvent(t, rule, o, id);
      if o.effect.Committed? && id == o.effect.transition.eventId {
        AppendedChronicled(h, o, r, id, u.events[id]);
      } else {
        RecordKeepsJournal(h, o.effect, id, t.events[id]);
      }
    }
  }

  lemma AcceptingRetained(s: Site, k: nat, input: Input, r: Id, h: History)
    requires Orderly(s) && Accepts(s, k) && Retained(s.tables, r, h)
    requires !input.Deactivate?
    ensures
      var o := StepOf(s, k, input);
      Retained(WithEngine(s, k, o).tables, r, if RuleAt(s, k) == r then Record(h, o.effect) else h)
  {
    var (c, e) := (s.runtimes[k].resources, s.runtimes[k].engine);
    assert EngineKept(s.tables, s.runtimes[k]);
    LinkagePlaced(s.tables, c);
    RowIsOwned(s.tables, c.rule);
    StepWrites(e, DiskOf(s.tables, c.rule.id), input);
    WriteRetained(s.tables, c.rule, StepOf(s, k, input), r, h);
  }

  lemma ReplacedAttended(s: Site, u: Site, k: nat, e: Engine, r: Id, w: World)
    requires EnginesKept(s) && Serves(s, k, r)
    requires u.runtimes == s.runtimes[k := s.runtimes[k].(engine := e)]
    requires w.engine == Some(e) && (!e.accepting ==> e.pc.Idle?)
    ensures Attended(u, r, w)
  {
    forall j: nat ensures Serves(u, j, r) <==> j == k && e.accepting {
      assert j != k && Accepts(s, j) ==> RuleAt(s, j) != r;
    }
    assert Serves(u, k, r) <==> e.accepting;
  }

  lemma ServingAttended(s: Site, k: nat, input: Input, r: Id, h: History)
    requires Orderly(s) && Serves(s, k, r)
    requires !input.Deactivate? && (input.Tick? ==> input.newId >= s.nextId)
    ensures
      var o := StepOf(s, k, input);
      Attended(WithEngine(s, k, o), r, World(Some(o.engine), o.disk, h))
  {
    var (o, u) := (StepOf(s, k, input), WithEngine(s, k, StepOf(s, k, input)));
    assert EngineKept(s.tables, s.runtimes[k]);
    AcceptingKept(s, k, input);
    assert EngineKept(u.tables, s.runtimes[k].(engine := o.engine));
    ReplacedAttended(s, u, k, o.engine, r, World(Some(o.engine), o.disk, h));
  }

  /** A step of the engine that serves the rule is the same step of the rule's world. */
  lemma ServingShown(s: Site, k: nat, input: Input, r: Id, w: World)
    requires Orderly(s) && Shows(s, r, w) && Serves(s, k, r)
    requires !input.Deactivate? && (input.Tick? ==> input.newId >= s.nextId)
    ensures Shows(WithEngine(s, k, StepOf(s, k, input)), r, Next(w, On(input)))
  {
    var o := StepOf(s, k, input);
    assert EngineKept(s.tables, s.runtimes[k]);
    OnStep(w, s.runtimes[k].engine, input);
    RecordDraws(w.past, o.effect);
    AcceptingWrites(s, k, input);
    AcceptingRetained(s, k, input, r, w.past);
    ServingAttended(s, k, input, r, Record(w.past, o.effect));
  }

  /** A step of another rule's engine is none. */
  lemma StrangerShown(s: Site, k: nat, input: Input, r: Id, w: World)
    requires Orderly(s) && Shows(s, r, w) && Accepts(s, k) && RuleAt(s, k) != r
    requires !input.Deactivate? && (input.Tick? ==> input.newId >= s.nextId)
    ensures Shows(WithEngine(s, k, StepOf(s, k, input)), r, w)
  {
    var u := WithEngine(s, k, StepOf(s, k, input));
    assert EngineKept(s.tables, s.runtimes[k]);
    AcceptingWrites(s, k, input);
    AcceptingRetained(s, k, input, r, w.past);
    CommitDraws(s.runtimes[k].engine, DiskOf(s.tables, RuleAt(s, k)), input);
    forall j: nat ensures Serves(u, j, r) <==> Serves(s, j, r) {
    }
  }

  lemma EngineShown(s: Site, k: nat, input: Input, r: Id, w: World)
    requires Orderly(s) && Shows(s, r, w) && Accepts(s, k)
    requires !input.Deactivate? && (input.Tick? ==> input.newId >= s.nextId)
    ensures Shows(WithEngine(s, k, StepOf(s, k, input)), r, Run(w, if Serves(s, k, r) then [On(input)] else []))
  {
    if Serves(s, k, r) {
      ServingShown(s, k, input, r, w);
      RunCons(w, On(input), []);
      assert [On(input)] + [] == [On(input)];
    } else {
      StrangerShown(s, k, input, r, w);
    }
  }

  // ----- one action at a time -----

  /** Attendance looks at the engines only. */
  lemma SameEngines(s: Site, u: Site, r: Id, w: World)
    requires Attended(s, r, w) && u.runtimes == s.runtimes
    ensures Attended(u, r, w)
  {
    assert forall k: nat :: Serves(u, k, r) <==> Serves(s, k, r);
  }

  lemma HandleShown(s: Site, k: nat, input: Input, r: Id, w: World)
    requires Orderly(s) && Shows(s, r, w)
    ensures
      var action := Action.Handle(k, input);
      Shows(NextSite(s, action), r, Run(w, Part(s, action, r)))
  {
    if Accepts(s, k) {
      if FromOutside(s, input) {
        EngineShown(s, k, input, r, w);
      }
    } else if k < |s.runtimes| {
      SuspendedIsInert(s, k, input);
    }
  }

  lemma SuspendShown(s: Site, k: nat, r: Id, w: World)
    requires Orderly(s) && Shows(s, r, w)
    ensures Shows(NextSite(s, SuspendNext(k)), r, Run(w, Part(s, SuspendNext(k), r)))
  {
    if s.phase.Stopping? && k in s.phase.todo && k < |s.runtimes| && s.runtimes[k].engine.pc.Idle? {
      assert Tended(s.phase, k) && Accepts(s, k);
      EngineShown(s, k, Suspend, r, w);
      var w' := Run(w, Part(s, SuspendNext(k), r));
      SameEngines(WithEngine(s, k, StepOf(s, k, Suspend)), NextSite(s, SuspendNext(k)), r, w');
    }
  }

  lemma RetireShown(s: Site, k: nat, r: Id, w: World)
    requires Orderly(s) && Shows(s, r, w)
    ensures Shows(NextSite(s, RetireNext(k)), r, Run(w, Part(s, RetireNext(k), r)))
  {
    if s.phase.Retiring? && k in s.phase.todo && k < |s.runtimes| {
      var (t, q, e) := (s.tables, RuleAt(s, k), s.runtimes[k].engine);
      assert EngineKept(t, s.runtimes[k]) && !Tended(s.phase, k) && !Accepts(s, k);
      ErasedStep(e, DiskOf(t, q));
      RowDeletedView(t, q, r);
      var u := NextSite(s, RetireNext(k));
      assert u.tables == RowDeleted(t, q) && u.runtimes == s.runtimes[k := s.runtimes[k].(engine := e.(state := None))];
      Unattended(s, r, w);
      var w' := Run(w, Part(s, RetireNext(k), r));
      if q == r {
        RunOne(w, Wipe({}));
        assert DiskOf(t, r).keys - {} == DiskOf(t, r).keys;
      }
      assert Drained(w') && w'.past.journal == w.past.journal;
      forall j: nat ensures !Serves(u, j, r) {
        assert !Tended(s.phase, j) && !Accepts(s, j);
      }
      ForgottenRetained(t, u.tables, r, w.past, w'.past);
    }
  }

  /** While no engine is tended, none serves any rule. */
  lemma Unattended(s: Site, r: Id, w: World)
    requires EnginesKept(s) && Attended(s, r, w) && forall k: nat :: !Tended(s.phase, k)
    ensures Drained(w) && forall k: nat :: !Serves(s, k, r)
  {
  }

  lemma RunOne(w: World, step: Worlds.Step)
    ensures Run(w, [step]) == Next(w, step)
  {
  }

  /** Losing events, or changing their status, retains the rest. */
  lemma ForgottenRetained(t: Tables, u: Tables, r: Id, h: History, h': History)
    requires Retained(t, r, h) && h'.journal == h.journal
    requires forall id :: id in u.events && u.events[id].ruleId == Some(r) ==>
               && id in t.events
               && u.events[id] ==
                  t.events[id].(status := u.events[id].status, updatedAt := u.events[id].updatedAt)
    ensures Retained(u, r, h')
  {
  }

  lemma ServiceRetained(t: Tables, op: Operation, r: Id, h: History)
    requires IsService(op) && Retained(t, r, h)
    ensures Retained(Apply(t, op), r, h)
  {
    ForgottenRetained(t, Apply(t, op), r, h, h);
  }

  lemma ServiceShown(s: Site, op: Operation, r: Id, w: World)
    requires Orderly(s) && Shows(s, r, w)
    ensures Shows(NextSite(s, Service(op)), r, w)
  {
    var u := NextSite(s, Service(op));
    if Serviceable(s, op) {
      assert u == Perform(s, op);
      OutsideView(s.tables, op, r);
      ServiceRetained(s.tables, op, r, w.past);
      SameEngines(s, u, r, w);
    }
  }

  lemma UpsertShown(s: Site, op: Operation, r: Id, w: World)
    requires Orderly(s) && Shows(s, r, w) && s.phase.Paused? && IsMaintenance(op) && !op.Purge? && !op.Reset?
    ensures Shows(Perform(s, op), r, w)
  {
    var u := Perform(s, op);
    OutsideView(s.tables, op, r);
    assert u.tables.events == s.tables.events;
    SameEngines(s, u, r, w);
  }

  lemma PurgeRetained(t: Tables, before: Time, journal: Option<Id>, r: Id, h: History)
    requires Consistent(t) && Retained(t, r, h)
    ensures Retained(Apply(t, Operation.Purge(before, journal)), r, h)
  {
  }

  /** What a purge is for one rule. */
  function PurgeStep(d: Disk, d': Disk): Worlds.Step
  {
    Step.Purge(d.keys - d'.keys, d.row != d'.row)
  }

  lemma PurgeNext(w: World, d: Disk)
    requires Drained(w) && d.keys <= w.disk.keys && (d.row == w.disk.row || d.row == Forget(w.disk.row))
    ensures Next(w, PurgeStep(w.disk, d)) == w.(disk := d)
  {
  }

  lemma PurgePart(s: Site, before: Time, journal: Option<Id>, r: Id, w: World)
    requires Consistent(s.tables) && s.phase.Paused? && Drained(w) && w.disk == DiskOf(s.tables, r)
    ensures
      var op := Operation.Purge(before, journal);
      Run(w, Part(s, Maintain(op), r)) == w.(disk := DiskOf(Apply(s.tables, op), r))
  {
    var d := DiskOf(Apply(s.tables, Operation.Purge(before, journal)), r);
    PurgeView(s.tables, before, journal, r);
    assert d.row == w.disk.row || d.row == Forget(w.disk.row);
    PurgeNext(w, d);
    RunOne(w, PurgeStep(w.disk, d));
    assert Part(s, Maintain(Operation.Purge(before, journal)), r) == [PurgeStep(w.disk, d)];
  }

  lemma PurgeShown(s: Site, before: Time, journal: Option<Id>, r: Id, w: World)
    requires Orderly(s) && Shows(s, r, w) && s.phase.Paused?
    ensures
      var op := Operation.Purge(before, journal);
      Shows(Perform(s, op), r, Run(w, Part(s, Maintain(op), r)))
  {
    var op := Operation.Purge(before, journal);
    Unattended(s, r, w);
    PurgePart(s, before, journal, r, w);
    PurgeRetained(s.tables, before, journal, r, w.past);
    SameEngines(s, Perform(s, op), r, w.(disk := DiskOf(Apply(s.tables, op), r)));
  }

  lemma ResetShown(s: Site, r: Id, w: World)
    requires Orderly(s) && Shows(s, r, w) && s.phase.Paused?
    ensures Shows(Perform(s, Reset), r, Run(w, Part(s, Maintain(Reset), r)))
  {
    var step := Wipe(DiskOf(s.tables, r).keys);
    Unattended(s, r, w);
    RunOne(w, step);
    assert Part(s, Maintain(Reset), r) == [step];
    assert DiskOf(Emptied(), r) == Disk(None, {});
    assert Next(w, step) == w.(disk := Disk(None, {}), past := Record(w.past, Erased));
    SameEngines(s, Perform(s, Reset), r, Next(w, step));
  }

  lemma MaintainShown(s: Site, op: Operation, r: Id, w: World)
    requires Orderly(s) && Shows(s, r, w)
    ensures Shows(NextSite(s, Maintain(op)), r, Run(w, Part(s, Maintain(op), r)))
  {
    if s.phase.Paused? && IsMaintenance(op) {
      assert NextSite(s, Maintain(op)) == Perform(s, op);
      if op.Purge? {
        PurgeShown(s, op.before, op.journal, r, w);
      } else if op.Reset? {
        ResetShown(s, r, w);
      } else {
        assert Part(s, Maintain(op), r) == [];
        UpsertShown(s, op, r, w);
      }
    } else {
      assert NextSite(s, Maintain(op)) == s && Part(s, Maintain(op), r) == [];
    }
  }

  /** The stored part and the retained events after a recovery. */
  lemma RecoveryShown(s: Site, c: ConfiguredResources, now: Time, r: Id, h: History)
    requires Grounded(s) && Linkage(s.tables, c) && Retained(s.tables, r, h)
    ensures
      var (o, t) := (Recovery(s, c, now), WrittenBack(s.tables, c.rule.id, Recovery(s, c, now)));
      && o.effect.Nothing?
      && DiskOf(t, r) == (if r == c.rule.id then o.disk else DiskOf(s.tables, r))
      && Retained(t, r, h)
  {
  }

  lemma JoinedAttended(s: Site, u: Site, c: ConfiguredResources, e: Engine, r: Id, w: World, w': World)
    requires Attended(s, r, w) && u.runtimes == s.runtimes + [RuleRuntime(c, e)] && e.accepting
    requires if r == c.rule.id then (forall k: nat :: !Serves(s, k, r)) && w'.engine == Some(e) else w' == w
    ensures Attended(u, r, w')
  {
    var n := |s.runtimes|;
    forall k: nat ensures Serves(u, k, r) <==> Serves(s, k, r) || (r == c.rule.id && k == n) {
    }
    assert r == c.rule.id ==> Serves(u, n, r);
  }

  lemma BuildShown(s: Site, q: Id, now: Time, r: Id, w: World)
    requires Orderly(s) && Shows(s, r, w)
    ensures Shows(NextSite(s, Build(q, now)), r, Run(w, Part(s, Build(q, now), r)))
  {
    if s.phase.Building? && q in s.phase.linkages {
      var (c, u) := (s.phase.linkages[q], NextSite(s, Build(q, now)));
      var o := Recovery(s, c, now);
      LinkagePlaced(s.tables, c);
      RecoveryShown(s, c, now, r, w.past);
      var w' := if q == r then World(Some(o.engine), o.disk, w.past) else w;
      if q == r {
        assert forall k: nat :: !Serves(s, k, r);
        RunOne(w, Start(c.rule, s.source, s.storeCoordinates, now));
        assert Run(w, Part(s, Build(q, now), r)) == w';
      }
      JoinedAttended(s, u, c, o.engine, r, w, w');
    }
  }

  lemma MoveShown(s: Site, action: Action, r: Id, w: World)
    requires Shows(s, r, w)
    requires
      || action.Open? || action.Request? || action.Stopped? || action.Resume? || action.Rebuild?
      || action.Built? || action.Interrupt?
    ensures Shows(NextSite(s, action), r, Run(w, Part(s, action, r)))
  {
    assert NextSite(s, action) == s.(phase := NextSite(s, action).phase);
    SameEngines(s, NextSite(s, action), r, w);
  }

  /** One action of the installation is one step of the rule's world, or none. */
  lemma ActionShown(s: Site, action: Action, r: Id, w: World)
    requires Orderly(s) && Shows(s, r, w)
    ensures Shows(NextSite(s, action), r, Run(w, Part(s, action, r)))
  {
    match action
    case Handle(k, input) => HandleShown(s, k, input, r, w);
    case SuspendNext(k) => SuspendShown(s, k, r, w);
    case RetireNext(k) => RetireShown(s, k, r, w);
    case Service(op) => ServiceShown(s, op, r, w);
    case Maintain(op) => MaintainShown(s, op, r, w);
    case Build(q, now) => BuildShown(s, q, now, r, w);
    case Die => RunOne(w, Crash);
    case _ => MoveShown(s, action, r, w);
  }

  lemma {:induction false} RunShown(s: Site, actions: seq<Action>, r: Id, w: World)
    requires Orderly(s) && AllHarmless(s, actions) && Shows(s, r, w)
    ensures Shows(RunSite(s, actions), r, Run(w, Parts(s, actions, r)))
    decreases |actions|
  {
    if actions != [] {
      var (first, rest) := (Part(s, actions[0], r), Parts(NextSite(s, actions[0]), actions[1..], r));
      OrderlyNext(s, actions[0]);
      ActionShown(s, actions[0], r, w);
      RunShown(NextSite(s, actions[0]), actions[1..], r, Run(w, first));
      RunConcat(w, first, rest);
    }
  }

  // ----- clocks -----

  function ReadingAt(action: Action): Option<Time>
  {
    match action
    case Handle(_, input) => ReadingOf(On(input))
    case Build(_, now) => Some(now)
    case _ => None
  }

  predicate ForwardSite(clock: Time, actions: seq<Action>)
    decreases |actions|
  {
    actions == [] ||
    match ReadingAt(actions[0])
    case None => ForwardSite(clock, actions[1..])
    case Some(now) => clock <= now && ForwardSite(now, actions[1..])
  }

  /** If the installation's clock does not run backward, no rule sees it do so. */
  lemma {:induction false} ForwardParts(s: Site, actions: seq<Action>, r: Id, clock: Time, seen: Time)
    requires ForwardSite(clock, actions) && seen <= clock
    ensures Forward(seen, Parts(s, actions, r))
    decreases |actions|
  {
    if actions != [] {
      var (first, rest) := (Part(s, actions[0], r), Parts(NextSite(s, actions[0]), actions[1..], r));
      var after := match ReadingAt(actions[0]) case None => clock case Some(now) => now;
      if first == [] {
        ForwardParts(NextSite(s, actions[0]), actions[1..], r, after, seen);
        assert first + rest == rest;
      } else {
        PartReading(s, actions[0], r);
        ForwardParts(NextSite(s, actions[0]), actions[1..], r, after, Later(seen, first[0]));
        assert (first + rest)[1..] == rest;
      }
    }
  }

  lemma PartReading(s: Site, action: Action, r: Id)
    ensures |Part(s, action, r)| <= 1
    ensures Part(s, action, r) != [] ==> ReadingOf(Part(s, action, r)[0]) == ReadingAt(action)
  {
  }
}
