/** The whole installation: one database, the manager that drains and rebuilds engines
    around maintenance, and every engine object it ever built in this process.

    Engines, timers, listeners and services interleave freely with the manager's own
    steps: at any moment any engine, however old, may be handed any sample or callback. */
module Sites {
  import opened Wrappers
  import opened Models
  import opened Machine
  import opened Safety
  import opened Tables
  import opened Operations

  /** One complete enabled linkage, as it is read from the database. */
  datatype ConfiguredResources = ConfiguredResources(tracker: Resource, place: Resource, journal: Resource, rule: Rule)

  /** An engine together with the resources it was built for. */
  datatype RuleRuntime = RuleRuntime(resources: ConfiguredResources, engine: Engine)

  datatype Goal = Refresh | Pause | Stop

  datatype Phase =
    | Closed                                                     // no process, or storage is closed
    | Running(current: set<nat>)                                 // the refresh lock is free
    | Stopping(todo: set<nat>, stopped: set<nat>, goal: Goal)    // suspending the current engines
    | Paused                                                     // inside the maintenance scope
    | Retiring(todo: set<nat>, resources: map<Id, ConfiguredResources>)   // deactivating engines whose rule is gone
    | Building(linkages: map<Id, ConfiguredResources>, built: set<nat>)   // recovering a new engine per linkage

  datatype Site = Site(
    tables: Tables,
    runtimes: seq<RuleRuntime>,
    phase: Phase,
    source: Source,
    storeCoordinates: bool,
    nextId: Id)

  datatype Action =
    | Open                                  // the process starts and reads the active resources
    | Handle(index: nat, input: Input)      // an engine takes a sample or a callback, or goes on under its lock
    | Service(operation: Operation)         // a manual event, or an exclusion or restoration
    | Request(goal: Goal)                   // someone takes the refresh lock
    | SuspendNext(index: nat)
    | Stopped                               // every current engine has been suspended
    | Maintain(operation: Operation)        // whatever runs inside the maintenance scope
    | Resume                                // the maintenance scope ends
    | RetireNext(index: nat)
    | Rebuild                               // every retired engine has been deactivated
    | Build(rule: Id, now: Time)            // the next engine is built and recovers its row
    | Built                                 // listeners are installed, the refresh lock is free again
    | Interrupt                             // a storage error ends a rebuild early; the refresh lock is free again
    | Die                                   // the process dies

  /** The complete linkages whose rule, tracker, place and journal are all enabled. */
  function ActiveResources(t: Tables): map<Id, ConfiguredResources>
  {
    ActiveAmong(t.trackers, t.places, t.journals, t.rules)
  }

  function ActiveAmong(
    trackers: map<Id, Resource>, places: map<Id, Resource>, journals: map<Id, Resource>, rules: map<Id, Rule>)
    : map<Id, ConfiguredResources>
  {
    map r | r in rules.Keys && AllEnabled(trackers, places, journals, rules[r]) ::
      Configured(trackers, places, journals, rules[r])
  }

  function Configured(trackers: map<Id, Resource>, places: map<Id, Resource>, journals: map<Id, Resource>, rule: Rule)
    : ConfiguredResources
    requires AllEnabled(trackers, places, journals, rule)
  {
    ConfiguredResources(trackers[rule.tracker], places[rule.place], journals[rule.journal], rule)
  }

  predicate AllEnabled(trackers: map<Id, Resource>, places: map<Id, Resource>, journals: map<Id, Resource>, rule: Rule)
  {
    && rule.enabled
    && rule.tracker in trackers && trackers[rule.tracker].enabled
    && rule.place in places && places[rule.place].enabled
    && rule.journal in journals && journals[rule.journal].enabled
  }

  predicate IsActive(t: Tables, rule: Rule)
  {
    AllEnabled(t.trackers, t.places, t.journals, rule)
  }

  /** A rule is active exactly if it, its tracker, its place and its journal are all switched on, and then
      its linkage names these four. */
  lemma ActiveExactly(t: Tables, r: Id)
    requires r in t.rules && RuleLinked(t, t.rules[r])
    ensures
      var rule := t.rules[r];
      var (tracker, place, journal) := (t.trackers[rule.tracker], t.places[rule.place], t.journals[rule.journal]);
      && (r in ActiveResources(t) <==> rule.enabled && tracker.enabled && place.enabled && journal.enabled)
      && (r in ActiveResources(t) ==> ActiveResources(t)[r] == ConfiguredResources(tracker, place, journal, rule))
  {
  }

  lemma ActiveIsRule(t: Tables, r: Id)
    ensures r in ActiveResources(t) ==> r in t.rules
  {
  }

  function RuleAt(s: Site, k: nat): Id
    requires k < |s.runtimes|
  {
    s.runtimes[k].resources.rule.id
  }

  /** What an engine's step leaves in the database. */
  function WrittenBack(t: Tables, rule: Id, o: Outcome): Tables
  {
    match o.effect
    case Committed(_, c) => ConfirmCommitted(t, c)
    case _ => if o.disk.row.None? then RowDeleted(t, rule) else Saved(t, o.disk.row.value)
  }

  function WithEngine(s: Site, k: nat, o: Outcome): Site
    requires k < |s.runtimes|
  {
    s.(tables := WrittenBack(s.tables, RuleAt(s, k), o),
       runtimes := s.runtimes[k := s.runtimes[k].(engine := o.engine)],
       nextId := if o.effect.Committed? then o.effect.transition.eventId + 1 else s.nextId)
  }

  /** The inputs that reach an engine from outside the manager. */
  predicate FromOutside(s: Site, input: Input)
  {
    !input.Suspend? && !input.Deactivate? && (input.Tick? ==> input.newId >= s.nextId)
  }

  /** What services do beside living engines. */
  predicate IsService(op: Operation)
  {
    op.ChangeStatus? || (op.AddEvent? && op.event.ruleId.None?)
  }

  predicate IsMaintenance(op: Operation)
  {
    op.Purge? || op.Reset? || op.UpsertTracker? || op.UpsertPlace? || op.UpsertJournal? || op.UpsertRule?
  }

  function Perform(s: Site, op: Operation): Site
  {
    s.(tables := Apply(s.tables, op),
       nextId := if op.AddEvent? && op.id >= s.nextId then op.id + 1 else s.nextId)
  }

  function NextSite(s: Site, action: Action): Site
  {
    match action
    case Open => if s.phase.Closed? then Rebuilding(s) else s
    case Handle(k, input) => if k < |s.runtimes| && FromOutside(s, input) then Stepped(s, k, input) else s
    case Service(op) => if Serviceable(s, op) then Perform(s, op) else s
    case Request(goal) => if s.phase.Running? then s.(phase := Stopping(s.phase.current, {}, goal)) else s
    case SuspendNext(k) => if Suspendable(s, k) then SuspendOne(s, k) else s
    case Stopped => if s.phase.Stopping? && s.phase.todo == {} then AfterDrain(s) else s
    case Maintain(op) => if s.phase.Paused? && IsMaintenance(op) then Perform(s, op) else s
    case Resume => if s.phase.Paused? then Rebuilding(s) else s
    case RetireNext(k) => if Retirable(s, k) then RetireOne(s, k) else s
    case Rebuild =>
      if s.phase.Retiring? && s.phase.todo == {} then s.(phase := Building(s.phase.resources, {})) else s
    case Build(r, now) =>
      if s.phase.Building? && r in s.phase.linkages then BuildOne(s, s.phase.linkages[r], now) else s
    case Built => if s.phase.Building? && s.phase.linkages == map[] then s.(phase := Running(s.phase.built)) else s
    case Interrupt => if s.phase.Building? && s.phase.linkages != map[] then s.(phase := Running({})) else s
    case Die => s.(runtimes := [], phase := Closed)
  }

  /** The active linkages have been read; no engine has been built yet. */
  function Rebuilding(s: Site): Site
  {
    s.(phase := Building(ActiveResources(s.tables), {}))
  }

  function Stepped(s: Site, k: nat, input: Input): Site
    requires k < |s.runtimes|
  {
    WithEngine(s, k, Machine.Step(s.runtimes[k].engine, DiskOf(s.tables, RuleAt(s, k)), input))
  }

  predicate Serviceable(s: Site, op: Operation)
  {
    IsService(op) && Admissible(s.tables, op) && (op.AddEvent? ==> op.id >= s.nextId)
  }

  /** An engine can be suspended, or retired, once the step that holds its lock has ended. */
  predicate Suspendable(s: Site, k: nat)
  {
    s.phase.Stopping? && k in s.phase.todo && k < |s.runtimes| && s.runtimes[k].engine.pc.Idle?
  }

  function SuspendOne(s: Site, k: nat): Site
    requires Suspendable(s, k)
  {
    Stepped(s, k, Suspend).(phase := Stopping(s.phase.todo - {k}, s.phase.stopped + {k}, s.phase.goal))
  }

  predicate Retirable(s: Site, k: nat)
  {
    s.phase.Retiring? && k in s.phase.todo && k < |s.runtimes| && s.runtimes[k].engine.pc.Idle?
  }

  function RetireOne(s: Site, k: nat): Site
    requires Retirable(s, k)
  {
    Stepped(s, k, Deactivate).(phase := Retiring(s.phase.todo - {k}, s.phase.resources))
  }

  /** Every engine has been suspended. */
  function AfterDrain(s: Site): Site
    requires s.phase.Stopping?
  {
    match s.phase.goal
    case Pause => s.(phase := Paused)
    case Stop => s.(phase := Closed)
    case Refresh =>
      var resources := ActiveResources(s.tables);
      var gone := set k | k in s.phase.stopped && k < |s.runtimes| && RuleAt(s, k) !in resources;
      s.(phase := Retiring(gone, resources))
  }

  function BuildOne(s: Site, c: ConfiguredResources, now: Time): Site
    requires s.phase.Building?
  {
    var o := Recover(c.rule, s.source, s.storeCoordinates, DiskOf(s.tables, c.rule.id), now);
    s.(tables := WrittenBack(s.tables, c.rule.id, o),
       runtimes := s.runtimes + [RuleRuntime(c, o.engine)],
       phase := Building(s.phase.linkages - {c.rule.id}, s.phase.built + {|s.runtimes|}))
  }

  function RunSite(s: Site, actions: seq<Action>): Site
    decreases |actions|
  {
    if actions == [] then s else RunSite(NextSite(s, actions[0]), actions[1..])
  }

  /** A fresh installation: an empty database and no process. */
  function Installed(source: Source, storeCoordinates: bool): Site
  {
    Site(Emptied(), [], Closed, source, storeCoordinates, 0)
  }

  // ----- what an engine's step writes -----

  predicate SameLast(s: RuntimeState, row: Option<RuntimeState>)
  {
    match row
    case None => s.lastEventId.None? && s.lastEventType.None? && s.lastEventAt.None?
    case Some(t) =>
      s.lastEventId == t.lastEventId && s.lastEventType == t.lastEventType && s.lastEventAt == t.lastEventAt
  }

  /** The row that a step leaves belongs to the rule and names the event it named before, or the one
      that the step has just committed. */
  predicate Writes(rule: Rule, d: Disk, o: Outcome)
  {
    match o.effect
    case Committed(_, c) =>
      && WellBuilt(c) && Shaped(c.runtimeState)
      && c.ruleId == rule.id && c.trackerId == rule.tracker && c.placeId == rule.place && c.journalId == rule.journal
      && Key(c.generation, c.confirmedDeadline) !in d.keys
      && o.disk == Disk(Some(c.runtimeState), d.keys + {Key(c.generation, c.confirmedDeadline)})
    case _ =>
      && o.disk.keys == d.keys
      && (o.disk.row.Some? ==> o.disk.row.value.ruleId == rule.id && SameLast(o.disk.row.value, d.row))
  }

  predicate Owned(rule: Rule, d: Disk)
  {
    d.row.Some? ==> d.row.value.ruleId == rule.id
  }

  lemma DecideWrites(e: Engine, d: Disk, now: Time, answer: Option<Presence>, newId: Id)
    requires InStep(e, d) && Owned(e.rule, d) && e.pc.Confirm? && d.row.value.pendingDeadline.value <= now
    ensures Writes(e.rule, d, Decide(e, d, d.row.value, now, answer, newId))
  {
  }

  lemma StepWrites(e: Engine, d: Disk, input: Input)
    requires InStep(e, d) && Owned(e.rule, d)
    ensures Writes(e.rule, d, Machine.Step(e, d, input))
  {
    match input
    case Tick(now, answer, newId) =>
      if e.pc.Confirm? && d.row.value.pendingDeadline.value <= now {
        DecideWrites(e, d, now, answer, newId);
      }
    case _ =>
  }

  lemma RecoverWrites(rule: Rule, source: Source, storeCoordinates: bool, d: Disk, now: Time)
    requires Owned(rule, d)
    ensures Writes(rule, d, Recover(rule, source, storeCoordinates, d, now))
  {
  }

  // ----- and what that makes of the database -----

  /** Identifiers from this one on are unused. */
  predicate Unused(t: Tables, nextId: Id)
  {
    forall id :: id in t.events ==> id < nextId
  }

  predicate Placed(t: Tables, rule: Rule)
  {
    Intact(t) && rule.id in t.rules && RuleLinked(t, rule)
  }

  lemma CommittedView(t: Tables, rule: Rule, c: ConfirmedTransition)
    requires Placed(t, rule) && WellBuilt(c)
    requires c.ruleId == rule.id && c.trackerId == rule.tracker
    requires c.placeId == rule.place && c.journalId == rule.journal
    requires Key(c.generation, c.confirmedDeadline) !in Keys(t, rule.id) && c.eventId !in t.events
    ensures Intact(ConfirmCommitted(t, c)) && Committable(t, c)
  {
    KeysMeaning(t, rule.id, Key(c.generation, c.confirmedDeadline));
    assert Committable(t, c) && !Replayed(t, c);
    ApplyIntact(t, Operation.Confirm(c));
  }

  lemma SavedRowIntact(t: Tables, rule: Rule, s: RuntimeState)
    requires Placed(t, rule)
    requires s.ruleId == rule.id && SameLast(s, DiskOf(t, rule.id).row)
    ensures Intact(Saved(t, s))
  {
    if rule.id in t.rows {
      assert LastEventMatches(t, t.rows[rule.id]) && t.rows[rule.id].ruleId == rule.id;
    }
    assert RowLinked(t, s);
    ApplyIntact(t, Save(s));
  }

  /** Writing back gives the rule exactly the stored part its engine computed, leaves every other
      rule's part alone, and keeps the database intact. */
  lemma WrittenBackView(t: Tables, rule: Rule, o: Outcome, other: Id)
    requires Placed(t, rule)
    requires Writes(rule, DiskOf(t, rule.id), o)
    requires o.effect.Committed? ==> o.effect.transition.eventId !in t.events
    ensures Intact(WrittenBack(t, rule.id, o))
    ensures DiskOf(WrittenBack(t, rule.id, o), other) == if other == rule.id then o.disk else DiskOf(t, other)
  {
    match o.effect
    case Committed(_, c) =>
      CommittedView(t, rule, c);
      ConfirmView(t, c, other);
    case _ =>
      match o.disk.row
      case None =>
        RowDeletedView(t, rule.id, other);
        ApplyIntact(t, DeleteRow(rule.id));
      case Some(s) =>
        SavedView(t, s, other);
        SavedRowIntact(t, rule, s);
  }
}
