/** What the guarantees of one rule's world mean for the database of the whole installation:
    statements about retained events, whatever engines, callbacks, services, maintenance and
    crashes have interleaved. */
module Guarantees {
  import opened Wrappers
  import opened Models
  import opened Machine
  import opened Worlds
  import opened Safety
  import opened Refinement
  import opened Tables
  import opened Operations
  import opened Sites
  import opened Drain
  import opened Projections

  ghost function SiteAfter(source: Source, storeCoordinates: bool, actions: seq<Action>): Site
  {
    RunSite(Installed(source, storeCoordinates), actions)
  }

  ghost function StepsFor(source: Source, storeCoordinates: bool, actions: seq<Action>, r: Id): seq<Worlds.Step>
  {
    Parts(Installed(source, storeCoordinates), actions, r)
  }

  /** Every rule's part of every run of the installation is a run of its world. */
  lemma EveryRuleRuns(source: Source, storeCoordinates: bool, actions: seq<Action>, r: Id)
    requires AllHarmless(Installed(source, storeCoordinates), actions)
    ensures
      Shows(SiteAfter(source, storeCoordinates, actions), r,
            Run(Genesis(), StepsFor(source, storeCoordinates, actions, r)))
  {
    var s := Installed(source, storeCoordinates);
    assert DiskOf(s.tables, r) == Disk(None, {});
    RunShown(s, actions, r, Genesis());
  }

  // ----- lifetimes -----

  /** Every retained event of the rule belongs to the present lifetime of its row. */
  predicate Current(t: Tables, r: Id, h: History)
  {
    forall id, k ::
      id in t.events && t.events[id].ruleId == Some(r) && 0 <= k < |h.journal| && h.journal[k].id == id ==>
      h.journal[k].lifetime == h.lifetime
  }

  /** Events come from before, under the same rule, or are new. */
  predicate Inherits(t: Tables, nextId: Id, u: Tables)
  {
    forall id :: id in u.events ==> id >= nextId || (id in t.events && u.events[id].ruleId == t.events[id].ruleId)
  }

  lemma StepInherits(s: Site, k: nat, input: Input)
    requires Orderly(s) && Accepts(s, k) && (input.Tick? ==> input.newId >= s.nextId)
    ensures Inherits(s.tables, s.nextId, WithEngine(s, k, StepOf(s, k, input)).tables)
  {
    var o := StepOf(s, k, input);
    CommitDraws(s.runtimes[k].engine, DiskOf(s.tables, RuleAt(s, k)), input);
    assert WithEngine(s, k, o).tables == WrittenBack(s.tables, RuleAt(s, k), o);
  }

  lemma OperationInherits(s: Site, op: Operation)
    requires Grounded(s) && !op.Confirm? && (op.AddEvent? ==> op.id >= s.nextId)
    ensures Inherits(s.tables, s.nextId, Apply(s.tables, op))
  {
  }

  lemma HandleInherits(s: Site, k: nat, input: Input)
    requires Orderly(s)
    ensures Inherits(s.tables, s.nextId, NextSite(s, Action.Handle(k, input)).tables)
  {
    if Accepts(s, k) && FromOutside(s, input) {
      StepInherits(s, k, input);
    } else if k < |s.runtimes| && !Accepts(s, k) {
      SuspendedIsInert(s, k, input);
    }
  }

  lemma SuspendInherits(s: Site, k: nat)
    requires Orderly(s)
    ensures Inherits(s.tables, s.nextId, NextSite(s, SuspendNext(k)).tables)
  {
    if s.phase.Stopping? && k in s.phase.todo && k < |s.runtimes| {
      assert Tended(s.phase, k) && Accepts(s, k);
      StepInherits(s, k, Suspend);
    }
  }

  lemma RetireInherits(s: Site, k: nat)
    requires Orderly(s)
    ensures Inherits(s.tables, s.nextId, NextSite(s, RetireNext(k)).tables)
  {
    if s.phase.Retiring? && k < |s.runtimes| && s.runtimes[k].engine.pc.Idle? {
      assert Accepts(s, k) ==> Tended(s.phase, k);
      ErasedStep(s.runtimes[k].engine, DiskOf(s.tables, RuleAt(s, k)));
    }
  }

  lemma OperationsInherit(s: Site, action: Action)
    requires Orderly(s) && (action.Maintain? || action.Service?)
    ensures Inherits(s.tables, s.nextId, NextSite(s, action).tables)
  {
    var op := action.operation;
    if (if action.Maintain? then IsMaintenance(op) else IsService(op)) && (op.AddEvent? ==> op.id >= s.nextId) {
      OperationInherits(s, op);
    }
  }

  /** The manager's own moves write nothing. */
  lemma MoveWritesNothing(s: Site, action: Action)
    requires !action.Handle? && !action.SuspendNext? && !action.RetireNext? && !action.Maintain? && !action.Service?
    requires !action.Build?
    ensures NextSite(s, action).tables == s.tables
  {
  }

  lemma WrittenBackScope(t: Tables, rule: Id, o: Outcome)
    ensures WrittenBack(t, rule, o).rules == t.rules
    ensures !o.effect.Committed? ==> WrittenBack(t, rule, o).events == t.events
  {
  }

  lemma RecoverCommitsNothing(rule: Rule, source: Source, storeCoordinates: bool, d: Disk, now: Time)
    ensures !Recover(rule, source, storeCoordinates, d, now).effect.Committed?
  {
  }

  lemma BuildWritesARow(s: Site, r: Id, now: Time)
    ensures
      var u := NextSite(s, Build(r, now));
      u.tables.events == s.tables.events && u.tables.rules == s.tables.rules
  {
    if s.phase.Building? && r in s.phase.linkages {
      var c := s.phase.linkages[r];
      RecoverCommitsNothing(c.rule, s.source, s.storeCoordinates, DiskOf(s.tables, c.rule.id), now);
      WrittenBackScope(s.tables, c.rule.id, Recovery(s, c, now));
    }
  }

  lemma NextInherits(s: Site, action: Action)
    requires Orderly(s)
    ensures Inherits(s.tables, s.nextId, NextSite(s, action).tables)
  {
    match action
    case Handle(k, input) => HandleInherits(s, k, input);
    case SuspendNext(k) => SuspendInherits(s, k);
    case RetireNext(k) => RetireInherits(s, k);
    case Maintain(_) => OperationsInherit(s, action);
    case Service(_) => OperationsInherit(s, action);
    case Build(r, now) => BuildWritesARow(s, r, now);
    case _ => MoveWritesNothing(s, action);
  }

  /** A step of this kind may erase the row. */
  predicate Erases(step: Worlds.Step)
  {
    step.Wipe? || (step.Start? && !step.rule.enabled) || (step.On? && step.input.Deactivate?)
  }

  lemma LifetimeStays(w: World, step: Worlds.Step)
    requires !Erases(step)
    ensures Next(w, step).past.lifetime == w.past.lifetime
  {
  }

  lemma PartErasesNothing(s: Site, action: Action, r: Id)
    requires PlansKept(s) && !action.RetireNext? && action != Maintain(Reset)
    ensures Part(s, action, r) != [] ==> !Erases(Part(s, action, r)[0])
  {
  }

  lemma LifetimeKept(s: Site, action: Action, r: Id, w: World)
    requires PlansKept(s) && !action.RetireNext? && action != Maintain(Reset)
    ensures Run(w, Part(s, action, r)).past.lifetime == w.past.lifetime
  {
    var part := Part(s, action, r);
    PartReading(s, action, r);
    if part != [] {
      PartErasesNothing(s, action, r);
      RunOne(w, part[0]);
      assert part == [part[0]];
      LifetimeStays(w, part[0]);
    }
  }

  /** Histories only grow. */
  predicate Grows(h: History, h': History)
  {
    && |h.journal| <= |h'.journal| && h.journal == h'.journal[..|h.journal|]
    && forall k :: |h.journal| <= k < |h'.journal| ==> h'.journal[k].lifetime == h'.lifetime
  }

  lemma NextGrows(w: World, step: Worlds.Step)
    ensures Grows(w.past, Next(w, step).past)
  {
  }

  lemma PartGrows(s: Site, action: Action, r: Id, w: World)
    ensures Grows(w.past, Run(w, Part(s, action, r)).past)
  {
    var part := Part(s, action, r);
    PartReading(s, action, r);
    if part != [] {
      RunOne(w, part[0]);
      assert part == [part[0]];
      NextGrows(w, part[0]);
    }
  }

  lemma CurrentNext(s: Site, action: Action, r: Id, w: World)
    requires Orderly(s) && Shows(s, r, w) && Sound(w) && Current(s.tables, r, w.past) && !action.RetireNext?
    ensures Current(NextSite(s, action).tables, r, Run(w, Part(s, action, r)).past)
  {
    if action == Maintain(Reset) {
      ResetCurrent(s, r, w);
    } else {
      LifetimeKept(s, action, r, w);
      NextInherits(s, action);
      PartGrows(s, action, r, w);
      CurrentGrows(s.tables, s.nextId, NextSite(s, action).tables, r, w, Run(w, Part(s, action, r)).past);
    }
  }

  lemma ResetCurrent(s: Site, r: Id, w: World)
    requires Current(s.tables, r, w.past)
    ensures Current(NextSite(s, Maintain(Reset)).tables, r, Run(w, Part(s, Maintain(Reset), r)).past)
  {
  }

  lemma CurrentGrows(t: Tables, nextId: Id, u: Tables, r: Id, w: World, h: History)
    requires Sound(w) && Current(t, r, w.past) && w.past.nextId <= nextId
    requires Inherits(t, nextId, u) && Grows(w.past, h) && h.lifetime == w.past.lifetime
    ensures Current(u, r, h)
  {
  }

  predicate NoRetirement(actions: seq<Action>)
  {
    forall k :: 0 <= k < |actions| ==> !actions[k].RetireNext?
  }

  /** An orderly site, a sound picture of one of its rules, and the currency of that rule's events. */
  ghost predicate Followed(s: Site, r: Id, w: World)
  {
    Orderly(s) && Shows(s, r, w) && Sound(w) && Current(s.tables, r, w.past)
  }

  lemma FollowedNext(s: Site, action: Action, r: Id, w: World)
    requires Followed(s, r, w) && Harmless(s, action) && !action.RetireNext?
    ensures Followed(NextSite(s, action), r, Run(w, Part(s, action, r)))
  {
    OrderlyNext(s, action);
    ActionShown(s, action, r, w);
    CurrentNext(s, action, r, w);
    SoundRun(w, Part(s, action, r));
  }

  lemma {:induction false} CurrentRun(s: Site, actions: seq<Action>, r: Id, w: World)
    requires Followed(s, r, w) && AllHarmless(s, actions) && NoRetirement(actions)
    ensures Followed(RunSite(s, actions), r, Run(w, Parts(s, actions, r)))
    decreases |actions|
  {
    if actions != [] {
      var (u, first) := (NextSite(s, actions[0]), Part(s, actions[0], r));
      FollowedNext(s, actions[0], r, w);
      CurrentRun(u, actions[1..], r, Run(w, first));
      RunConcat(w, first, Parts(u, actions[1..], r));
    }
  }

  // ----- the rule's definitions -----

  predicate Defines(action: Action, r: Id)
  {
    action.Maintain? && action.operation.UpsertRule? && action.operation.definition.id == r
  }

  /** Every definition that the rule was ever given. */
  function DefinitionsOf(actions: seq<Action>, r: Id): set<Rule>
  {
    set k | 0 <= k < |actions| && Defines(actions[k], r) :: actions[k].operation.definition
  }

  predicate DefinedIn(actions: seq<Action>, r: Id, rules: set<Rule>)
  {
    forall k :: 0 <= k < |actions| && Defines(actions[k], r) ==> actions[k].operation.definition in rules
  }

  predicate TablesKeepTo(t: Tables, r: Id, rules: set<Rule>)
  {
    r in t.rules ==> t.rules[r] in rules
  }

  /** The entry's confirmation seconds and its cooldown were asked for by definitions of the rule. */
  predicate Justified(e: Entry, rules: set<Rule>)
  {
    && e.under.Some? && e.under.value in rules
    && exists rule :: rule in rules && e.flip.window == rule.cooldownSeconds * SECOND
  }

  predicate WorldKeepsTo(w: World, rules: set<Rule>)
  {
    && (w.engine.Some? && w.engine.value.accepting ==> w.engine.value.rule in rules)
    && (Pending(w.disk) ==> w.past.under.Some? && w.past.under.value in rules)
    && forall k :: 0 <= k < |w.past.journal| ==> Justified(w.past.journal[k], rules)
  }

  /** An engine works by its own rule. */
  predicate ByTheRule(e: Engine, o: Outcome)
  {
    && o.engine.rule == e.rule && (o.engine.accepting ==> e.accepting)
    && (o.effect.Began? ==> e.accepting && o.effect.rule == e.rule)
    && (o.effect.Committed? ==> e.accepting && o.effect.flip.window == e.rule.cooldownSeconds * SECOND)
  }

  lemma StepByTheRule(e: Engine, d: Disk, input: Input)
    requires InStep(e, d)
    ensures ByTheRule(e, Machine.Step(e, d, input))
  {
  }

  lemma WorldKeeps(w: World, step: Worlds.Step, rules: set<Rule>)
    requires Coherent(w) && WorldKeepsTo(w, rules)
    requires step.Start? ==> step.rule in rules
    ensures WorldKeepsTo(Next(w, step), rules)
  {
    var (w', effect) := (Next(w, step), EffectOf(w, step));
    CoherentNext(w, step);
    if step.On? && Enabled(w, step.input) {
      StepByTheRule(w.engine.value, w.disk, step.input);
    }
    EntriesKeep(w.past, effect, w.engine, rules);
  }

  lemma EntriesKeep(h: History, effect: Effect, engine: Option<Engine>, rules: set<Rule>)
    requires forall k :: 0 <= k < |h.journal| ==> Justified(h.journal[k], rules)
    requires
      effect.Committed? ==>
        && h.under.Some? && h.under.value in rules
        && engine.Some? && engine.value.rule in rules
        && effect.flip.window == engine.value.rule.cooldownSeconds * SECOND
    ensures
      var h' := Record(h, effect);
      forall k :: 0 <= k < |h'.journal| ==> Justified(h'.journal[k], rules)
  {
    var h' := Record(h, effect);
    forall k | 0 <= k < |h'.journal| ensures Justified(h'.journal[k], rules) {
      if k < |h.journal| {
        assert h'.journal[k] == h.journal[k];
      }
    }
  }

  lemma SteppedRules(s: Site, k: nat, input: Input)
    requires k < |s.runtimes|
    ensures Stepped(s, k, input).tables.rules == s.tables.rules
  {
    WrittenBackScope(s.tables, RuleAt(s, k), StepOf(s, k, input));
  }

  lemma RulesKept(s: Site, action: Action)
    requires !action.Maintain?
    ensures NextSite(s, action).tables.rules == s.tables.rules
  {
    match action
    case Handle(k, input) =>
      if k < |s.runtimes| {
        SteppedRules(s, k, input);
      }
    case SuspendNext(k) =>
      if Suspendable(s, k) {
        SteppedRules(s, k, Suspend);
      }
    case RetireNext(k) =>
      if Retirable(s, k) {
        SteppedRules(s, k, Deactivate);
      }
    case Service(op) => assert IsService(op) ==> Apply(s.tables, op).rules == s.tables.rules;
    case Build(r, now) => BuildWritesARow(s, r, now);
    case _ => MoveWritesNothing(s, action);
  }

  lemma TablesKeep(s: Site, action: Action, r: Id, rules: set<Rule>)
    requires TablesKeepTo(s.tables, r, rules) && DefinedIn([action], r, rules)
    ensures TablesKeepTo(NextSite(s, action).tables, r, rules)
  {
    assert [action][0] == action;
    if action.Maintain? {
      OperationKeeps(s.tables, action.operation, r, rules);
      assert NextSite(s, action) == s || NextSite(s, action) == Perform(s, action.operation);
    } else {
      RulesKept(s, action);
    }
  }

  lemma OperationKeeps(t: Tables, op: Operation, r: Id, rules: set<Rule>)
    requires TablesKeepTo(t, r, rules)
    requires op.UpsertRule? && op.definition.id == r ==> op.definition in rules
    ensures TablesKeepTo(Apply(t, op), r, rules)
  {
  }

  lemma PartKeeps(s: Site, action: Action, r: Id, w: World, rules: set<Rule>)
    requires Orderly(s) && Sound(w) && TablesKeepTo(s.tables, r, rules) && WorldKeepsTo(w, rules)
    ensures WorldKeepsTo(Run(w, Part(s, action, r)), rules)
  {
    var part := Part(s, action, r);
    if part != [] {
      RunOne(w, part[0]);
      assert part == [part[0]];
      if action.Build? {
        LinkagePlaced(s.tables, s.phase.linkages[r]);
        ActiveIds(s.tables);
      }
      WorldKeeps(w, part[0], rules);
    }
  }

  lemma {:induction false} KeepsRun(s: Site, actions: seq<Action>, r: Id, w: World, rules: set<Rule>)
    requires Orderly(s) && AllHarmless(s, actions) && Sound(w)
    requires TablesKeepTo(s.tables, r, rules) && WorldKeepsTo(w, rules) && DefinedIn(actions, r, rules)
    ensures WorldKeepsTo(Run(w, Parts(s, actions, r)), rules)
    decreases |actions|
  {
    if actions != [] {
      var (first, rest) := (Part(s, actions[0], r), Parts(NextSite(s, actions[0]), actions[1..], r));
      OrderlyNext(s, actions[0]);
      TablesKeep(s, actions[0], r, rules);
      PartKeeps(s, actions[0], r, w, rules);
      SoundRun(w, first);
      KeepsRun(NextSite(s, actions[0]), actions[1..], r, Run(w, first), rules);
      RunConcat(w, first, rest);
    }
  }

  /** In every run of the installation, each rule's history keeps to the rule's definitions. */
  lemma HistoryKeeps(source: Source, storeCoordinates: bool, actions: seq<Action>, r: Id)
    requires AllHarmless(Installed(source, storeCoordinates), actions)
    ensures
      var w := Run(Genesis(), StepsFor(source, storeCoordinates, actions, r));
      Sound(w) && WorldKeepsTo(w, DefinitionsOf(actions, r))
  {
    var (s, rules) := (Installed(source, storeCoordinates), DefinitionsOf(actions, r));
    FreshlyInstalled(source, storeCoordinates, r);
    KeepsRun(s, actions, r, Genesis(), rules);
    Reachable(Parts(s, actions, r));
  }

  lemma FreshlyInstalled(source: Source, storeCoordinates: bool, r: Id)
    ensures Followed(Installed(source, storeCoordinates), r, Genesis())
  {
    assert DiskOf(Emptied(), r) == Disk(None, {});
  }

  // ----- dwell -----

  function TargetOf(eventType: EventType): Presence
  {
    match eventType
    case Enter => Inside
    case Exit => Outside
    case Manual => Unknown
  }

  /** Every automatic event that the database retains was confirmed at or after its deadline, and from
      its start to its deadline lie the seconds that a definition of its rule asks for in its direction. */
  lemma RetainedEventsDwelt(source: Source, storeCoordinates: bool, actions: seq<Action>, id: Id)
    requires AllHarmless(Installed(source, storeCoordinates), actions)
    requires
      var t := SiteAfter(source, storeCoordinates, actions).tables;
      id in t.events && t.events[id].ruleId.Some?
    ensures
      var e := SiteAfter(source, storeCoordinates, actions).tables.events[id];
      && e.eventType != Manual && e.generation.Some? && e.deadline.Some?
      && e.occurredAt <= e.deadline.value <= e.confirmedAt
      && exists rule :: rule in DefinitionsOf(actions, e.ruleId.value)
                        && Spans(rule, TargetOf(e.eventType), e.occurredAt, e.deadline.value)
  {
    var e := SiteAfter(source, storeCoordinates, actions).tables.events[id];
    var r := e.ruleId.value;
    EveryRuleRuns(source, storeCoordinates, actions, r);
    HistoryKeeps(source, storeCoordinates, actions, r);
    var h := Run(Genesis(), StepsFor(source, storeCoordinates, actions, r)).past;
    var k :| 0 <= k < |h.journal| && Chronicles(h.journal[k], id, e);
    var entry := h.journal[k];
    assert WholeEntry(entry) && Dwelt(entry, h.evidence) && Justified(entry, DefinitionsOf(actions, r));
    assert entry.flip.target == TargetOf(e.eventType);
    assert Spans(entry.under.value, TargetOf(e.eventType), e.occurredAt, e.deadline.value);
  }

  // ----- exactly once -----

  /** While no rule is retired, no engine is ever refused an append: the pending generation is newer
      than that of every retained event of the rule. */
  lemma NoDuplicates(source: Source, storeCoordinates: bool, actions: seq<Action>, k: nat, input: Input)
    requires AllHarmless(Installed(source, storeCoordinates), actions) && NoRetirement(actions)
    requires Accepts(SiteAfter(source, storeCoordinates, actions), k)
    ensures !StepOf(SiteAfter(source, storeCoordinates, actions), k, input).effect.Duplicate?
  {
    var s := Installed(source, storeCoordinates);
    var u := RunSite(s, actions);
    var r := RuleAt(u, k);
    FreshlyInstalled(source, storeCoordinates, r);
    CurrentRun(s, actions, r, Genesis());
    NoDuplicateNow(u, r, Run(Genesis(), Parts(s, actions, r)), k, input);
  }

  lemma NoDuplicateNow(s: Site, r: Id, w: World, k: nat, input: Input)
    requires Followed(s, r, w) && Accepts(s, k) && RuleAt(s, k) == r
    ensures !StepOf(s, k, input).effect.Duplicate?
  {
    assert EngineKept(s.tables, s.runtimes[k]);
    StepGood(s.runtimes[k].engine, DiskOf(s.tables, r), input);
    if Pending(w.disk) {
      PendingKeyIsNew(s.tables, r, w);
    }
  }

  lemma PendingKeyIsNew(t: Tables, r: Id, w: World)
    requires Sound(w) && w.disk == DiskOf(t, r) && Retained(t, r, w.past) && Current(t, r, w.past) && Pending(w.disk)
    ensures PendingKey(w.disk.row.value) !in w.disk.keys
  {
    var key := PendingKey(w.disk.row.value);
    KeysMeaning(t, r, key);
    forall id | id in t.events && t.events[id].ruleId == Some(r) ensures TransitionKey(t.events[id]) != Some((r, key)) {
      var k :| 0 <= k < |w.past.journal| && Chronicles(w.past.journal[k], id, t.events[id]);
      assert Generation(w.past.journal[k]) < w.disk.row.value.pendingGeneration;
    }
  }

  // ----- cooldowns -----

  /** Every definition of the rule asks for at least this cooldown. */
  predicate AlwaysCools(actions: seq<Action>, r: Id, seconds: nat)
  {
    forall k :: 0 <= k < |actions| && Defines(actions[k], r) ==>
      actions[k].operation.definition.cooldownSeconds >= seconds
  }

  predicate CoolsHistory(h: History, seconds: nat)
  {
    forall k :: 0 <= k < |h.journal| ==> h.journal[k].flip.window >= seconds * SECOND
  }

  lemma DefinitionsCool(actions: seq<Action>, r: Id, seconds: nat, w: World)
    requires AlwaysCools(actions, r, seconds) && WorldKeepsTo(w, DefinitionsOf(actions, r))
    ensures CoolsHistory(w.past, seconds)
  {
    forall k | 0 <= k < |w.past.journal| ensures w.past.journal[k].flip.window >= seconds * SECOND {
      assert Justified(w.past.journal[k], DefinitionsOf(actions, r));
    }
  }

  /** Whatever happens to the installation, as long as its clock does not run backward and no rule
      is retired: any two retained automatic events of a rule carry different generations, and of two
      in the same direction the later generation was confirmed at least the rule's cooldown later. */
  lemma RetainedEventsCooled(
    source: Source, storeCoordinates: bool, actions: seq<Action>, clock: Time, r: Id, seconds: nat, i: Id, j: Id)
    requires AllHarmless(Installed(source, storeCoordinates), actions)
    requires ForwardSite(clock, actions) && NoRetirement(actions) && AlwaysCools(actions, r, seconds)
    requires
      var t := SiteAfter(source, storeCoordinates, actions).tables;
      i in t.events && j in t.events && i != j && t.events[i].ruleId == t.events[j].ruleId == Some(r)
    ensures
      var t := SiteAfter(source, storeCoordinates, actions).tables;
      Cooled(t.events[i], t.events[j], seconds)
  {
    var s := Installed(source, storeCoordinates);
    ForwardParts(s, actions, r, clock, clock);
    FreshlyInstalled(source, storeCoordinates, r);
    CurrentRun(s, actions, r, Genesis());
    HistoryKeeps(source, storeCoordinates, actions, r);
    DefinitionsCool(actions, r, seconds, Run(Genesis(), Parts(s, actions, r)));
    EntriesCooled(RunSite(s, actions).tables, Parts(s, actions, r), clock, r, seconds, i, j);
  }

  /** Different generations, and the cooldown between two events in the same direction. */
  predicate Cooled(a: LocationEvent, b: LocationEvent, seconds: nat)
  {
    && a.generation.Some? && b.generation.Some? && a.generation != b.generation
    && (a.generation.value < b.generation.value && a.eventType == b.eventType ==>
          a.confirmedAt + seconds * SECOND <= b.confirmedAt)
  }

  lemma EntriesCooled(t: Tables, steps: seq<Worlds.Step>, clock: Time, r: Id, seconds: nat, i: Id, j: Id)
    requires
      var w := Run(Genesis(), steps);
      Sound(w) && Retained(t, r, w.past) && Current(t, r, w.past) && CoolsHistory(w.past, seconds)
    requires Forward(clock, steps)
    requires i in t.events && j in t.events && i != j && t.events[i].ruleId == t.events[j].ruleId == Some(r)
    ensures Cooled(t.events[i], t.events[j], seconds)
  {
    var h := Run(Genesis(), steps).past;
    var k :| 0 <= k < |h.journal| && Chronicles(h.journal[k], i, t.events[i]);
    var l :| 0 <= l < |h.journal| && Chronicles(h.journal[l], j, t.events[j]);
    assert WholeEntry(h.journal[k]) && WholeEntry(h.journal[l]);
    assert h.journal[k].lifetime == h.journal[l].lifetime == h.lifetime;
    assert k < l ==> Before(h.journal[k], h.journal[l]);
    assert l < k ==> Before(h.journal[l], h.journal[k]);
    if k < l && t.events[i].eventType == t.events[j].eventType {
      CooldownRespected(clock, steps, k, l);
    }
  }
}
