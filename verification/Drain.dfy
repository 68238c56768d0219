/** The drain protocol: however engines, callbacks, services and maintenance interleave, an
    accepting engine is the only one of its rule and works on what the database says. */
module Drain {
  import opened Wrappers
  import opened Models
  import opened Machine
  import opened Safety
  import opened Tables
  import opened Operations
  import opened Sites

  // ----- what every reachable site satisfies -----

  /** The manager holds this engine and has not yet suspended it. */
  predicate Tended(phase: Phase, k: nat)
  {
    match phase
    case Running(current) => k in current
    case Stopping(todo, _, _) => k in todo
    case Building(_, built) => k in built
    case _ => false
  }

  /** The resources are what the database links for their rule. */
  predicate Linkage(t: Tables, r: ConfiguredResources)
  {
    && r.rule.id in t.rules && t.rules[r.rule.id] == r.rule && IsActive(t, r.rule)
    && r.tracker == t.trackers[r.rule.tracker] && r.place == t.places[r.rule.place]
    && r.journal == t.journals[r.rule.journal]
  }

  predicate Accepts(s: Site, k: nat)
  {
    k < |s.runtimes| && s.runtimes[k].engine.accepting
  }

  predicate EngineKept(t: Tables, runtime: RuleRuntime)
  {
    var (r, e) := (runtime.resources, runtime.engine);
    && e.rule == r.rule
    && (!e.accepting ==> e.pc.Idle?)
    && (e.accepting ==> Linkage(t, r) && InStep(e, DiskOf(t, r.rule.id)))
  }

  ghost predicate EnginesKept(s: Site)
  {
    && (forall k :: 0 <= k < |s.runtimes| ==> EngineKept(s.tables, s.runtimes[k]))
    && (forall k: nat :: Accepts(s, k) <==> Tended(s.phase, k))
    && (forall j: nat, k: nat :: Accepts(s, j) && Accepts(s, k) && j != k ==> RuleAt(s, j) != RuleAt(s, k))
  }

  /** Linkages read for a rebuild stay current until they are used. */
  ghost predicate PlansKept(s: Site)
  {
    match s.phase
    case Building(linkages, _) =>
      forall r :: r in linkages ==>
        && linkages[r].rule.id == r && Linkage(s.tables, linkages[r])
        && forall k: nat :: Accepts(s, k) ==> RuleAt(s, k) != r
    case Retiring(_, resources) =>
      forall r :: r in resources ==> resources[r].rule.id == r && Linkage(s.tables, resources[r])
    case _ => true
  }

  predicate RowsShaped(t: Tables)
  {
    forall r :: r in t.rows ==> Shaped(t.rows[r])
  }

  predicate Grounded(s: Site)
  {
    Intact(s.tables) && RowsShaped(s.tables) && Unused(s.tables, s.nextId)
  }

  ghost predicate Orderly(s: Site)
  {
    Grounded(s) && EnginesKept(s) && PlansKept(s)
  }

  // ----- small facts -----

  /** Linkages depend on the resource tables only. */
  predicate SameResources(t: Tables, u: Tables)
  {
    t.trackers == u.trackers && t.places == u.places && t.journals == u.journals && t.rules == u.rules
  }

  lemma ActiveIds(t: Tables)
    requires Consistent(t)
    ensures forall r :: r in ActiveResources(t) ==>
        ActiveResources(t)[r].rule.id == r && Linkage(t, ActiveResources(t)[r])
    ensures forall r :: r in ActiveResources(t) ==> r in t.rules && t.rules[r] == ActiveResources(t)[r].rule
  {
  }

  lemma LinkagePlaced(t: Tables, r: ConfiguredResources)
    requires Intact(t) && Linkage(t, r)
    ensures Placed(t, r.rule) && r.rule.enabled
  {
  }

  lemma RowsByDisk(t: Tables)
    ensures RowsShaped(t) <==> forall r :: DiskOf(t, r).row.Some? ==> Shaped(DiskOf(t, r).row.value)
  {
    if forall r :: DiskOf(t, r).row.Some? ==> Shaped(DiskOf(t, r).row.value) {
      forall r | r in t.rows ensures Shaped(t.rows[r]) {
        assert DiskOf(t, r).row == Some(t.rows[r]);
      }
    }
  }

  lemma RowIsOwned(t: Tables, rule: Rule)
    requires Consistent(t) && rule.id in t.rules
    ensures Owned(rule, DiskOf(t, rule.id))
  {
  }

  lemma CommitDraws(e: Engine, d: Disk, input: Input)
    ensures
      var o := Machine.Step(e, d, input);
      o.effect.Committed? ==> input.Tick? && o.effect.transition.eventId == input.newId
  {
  }

  /** Only suspension and deactivation end acceptance; nothing begins it again. */
  lemma StepAccepts(e: Engine, d: Disk, input: Input)
    requires InStep(e, d)
    ensures
      var o := Machine.Step(e, d, input);
      && o.engine.rule == e.rule
      && (o.engine.accepting ==> e.accepting)
      && (e.accepting && !input.Suspend? && !input.Deactivate? ==> o.engine.accepting)
      && (e.accepting && input.Suspend? && e.pc.Idle? ==> !o.engine.accepting)
  {
  }

  // ----- the step of one engine -----

  /** Writing back a step of the rule's engine keeps the database whole, and moves only this rule's part. */
  lemma WriteGrounded(s: Site, rule: Rule, o: Outcome)
    requires Grounded(s) && Placed(s.tables, rule)
    requires Writes(rule, DiskOf(s.tables, rule.id), o)
    requires o.disk.row.Some? ==> Shaped(o.disk.row.value)
    requires o.effect.Committed? ==> o.effect.transition.eventId >= s.nextId
    ensures
      var t := WrittenBack(s.tables, rule.id, o);
      && Intact(t) && RowsShaped(t) && SameResources(s.tables, t)
      && Unused(t, if o.effect.Committed? then o.effect.transition.eventId + 1 else s.nextId)
      && DiskOf(t, rule.id) == o.disk
      && forall other :: other != rule.id ==> DiskOf(t, other) == DiskOf(s.tables, other)
  {
    var t := WrittenBack(s.tables, rule.id, o);
    RowsByDisk(s.tables);
    RowsByDisk(t);
    forall other ensures DiskOf(t, other) == if other == rule.id then o.disk else DiskOf(s.tables, other) {
      WrittenBackView(s.tables, rule, o, other);
    }
    WrittenBackView(s.tables, rule, o, rule.id);
  }

  function StepOf(s: Site, k: nat, input: Input): Outcome
    requires k < |s.runtimes|
  {
    Machine.Step(s.runtimes[k].engine, DiskOf(s.tables, RuleAt(s, k)), input)
  }

  /** The database after a step of an accepting engine. */
  lemma AcceptingWrites(s: Site, k: nat, input: Input)
    requires Grounded(s) && Accepts(s, k) && EngineKept(s.tables, s.runtimes[k])
    requires !input.Deactivate? && (input.Tick? ==> input.newId >= s.nextId)
    ensures
      var (o, u) := (StepOf(s, k, input), WithEngine(s, k, StepOf(s, k, input)));
      && Grounded(u) && SameResources(s.tables, u.tables)
      && DiskOf(u.tables, RuleAt(s, k)) == o.disk
      && (forall r :: r != RuleAt(s, k) ==> DiskOf(u.tables, r) == DiskOf(s.tables, r))
  {
    var (r, e) := (s.runtimes[k].resources, s.runtimes[k].engine);
    var d := DiskOf(s.tables, r.rule.id);
    LinkagePlaced(s.tables, r);
    RowIsOwned(s.tables, r.rule);
    StepGood(e, d, input);
    StepWrites(e, d, input);
    CommitDraws(e, d, input);
    WriteGrounded(s, r.rule, Machine.Step(e, d, input));
  }

  /** Only engine k has changed, and only its rule's part of the database. */
  ghost predicate Replaces(s: Site, u: Site, k: nat, e: Engine)
    requires k < |s.runtimes|
  {
    && u.runtimes == s.runtimes[k := s.runtimes[k].(engine := e)]
    && SameResources(s.tables, u.tables)
    && forall r :: r != RuleAt(s, k) ==> DiskOf(u.tables, r) == DiskOf(s.tables, r)
  }

  lemma ReplacedKept(s: Site, u: Site, k: nat, e: Engine)
    requires EnginesKept(s) && Accepts(s, k) && Replaces(s, u, k, e)
    requires EngineKept(u.tables, s.runtimes[k].(engine := e))
    requires forall j: nat :: Tended(u.phase, j) <==> Tended(s.phase, j) && (j == k ==> e.accepting)
    ensures EnginesKept(u)
  {
    forall j | 0 <= j < |u.runtimes| ensures EngineKept(u.tables, u.runtimes[j]) {
      OtherKept(s, u, k, e, j);
    }
    forall j: nat ensures Accepts(u, j) <==> Accepts(s, j) && (j == k ==> e.accepting) {
    }
    forall i: nat, j: nat | Accepts(u, i) && Accepts(u, j) && i != j ensures RuleAt(u, i) != RuleAt(u, j) {
      assert Accepts(s, i) && Accepts(s, j);
    }
  }

  lemma OtherKept(s: Site, u: Site, k: nat, e: Engine, j: nat)
    requires EnginesKept(s) && Accepts(s, k) && Replaces(s, u, k, e) && j < |u.runtimes|
    requires EngineKept(u.tables, s.runtimes[k].(engine := e))
    ensures EngineKept(u.tables, u.runtimes[j])
  {
    assert EngineKept(s.tables, s.runtimes[j]);
    assert Accepts(s, j) && j != k ==> RuleAt(s, j) != RuleAt(s, k);
  }

  lemma AcceptingKept(s: Site, k: nat, input: Input)
    requires Grounded(s) && Accepts(s, k) && EngineKept(s.tables, s.runtimes[k])
    requires !input.Deactivate? && (input.Tick? ==> input.newId >= s.nextId)
    ensures
      var (o, u) := (StepOf(s, k, input), WithEngine(s, k, StepOf(s, k, input)));
      && Grounded(u) && Replaces(s, u, k, o.engine) && EngineKept(u.tables, s.runtimes[k].(engine := o.engine))
      && (o.engine.accepting <==> !(input.Suspend? && s.runtimes[k].engine.pc.Idle?))
  {
    var (r, e) := (RuleAt(s, k), s.runtimes[k].engine);
    AcceptingWrites(s, k, input);
    StepGood(e, DiskOf(s.tables, r), input);
    StepAccepts(e, DiskOf(s.tables, r), input);
  }

  /** A suspended engine is inert: whatever sample, callback or clock reading still reaches it, it
      writes nothing, announces nothing and stays as it is. */
  lemma SuspendedIsInert(s: Site, k: nat, input: Input)
    requires Orderly(s) && k < |s.runtimes| && !Accepts(s, k)
    ensures NextSite(s, Action.Handle(k, input)) == s
    ensures !input.Deactivate? ==> StepOf(s, k, input).effect.Nothing?
  {
    var (t, r, e) := (s.tables, RuleAt(s, k), s.runtimes[k].engine);
    assert EngineKept(t, s.runtimes[k]);
    if FromOutside(s, input) {
      var o := Machine.Step(e, DiskOf(t, r), input);
      assert o == Outcome(e, DiskOf(t, r), Nothing);
      WrittenBackSame(t, r, o);
      assert s.runtimes[k].(engine := e) == s.runtimes[k];
      assert s.runtimes[k := s.runtimes[k]] == s.runtimes;
    }
  }

  lemma WrittenBackSame(t: Tables, r: Id, o: Outcome)
    requires Consistent(t) && o.disk == DiskOf(t, r) && !o.effect.Committed?
    ensures WrittenBack(t, r, o) == t
  {
  }

  // ----- one action at a time -----

  lemma AcceptingHandled(s: Site, k: nat, input: Input)
    requires Orderly(s) && Accepts(s, k) && FromOutside(s, input)
    ensures Orderly(WithEngine(s, k, StepOf(s, k, input)))
  {
    var (o, u) := (StepOf(s, k, input), WithEngine(s, k, StepOf(s, k, input)));
    AcceptingKept(s, k, input);
    ReplacedKept(s, u, k, o.engine);
    assert forall j: nat :: Accepts(u, j) <==> Accepts(s, j);
  }

  lemma HandleKeeps(s: Site, k: nat, input: Input)
    requires Orderly(s)
    ensures Orderly(NextSite(s, Action.Handle(k, input)))
  {
    if Accepts(s, k) {
      if FromOutside(s, input) {
        AcceptingHandled(s, k, input);
      }
    } else if k < |s.runtimes| {
      SuspendedIsInert(s, k, input);
    }
  }

  lemma SuspendKeeps(s: Site, k: nat)
    requires Orderly(s)
    ensures Orderly(NextSite(s, SuspendNext(k)))
  {
    if s.phase.Stopping? && k in s.phase.todo && k < |s.runtimes| && s.runtimes[k].engine.pc.Idle? {
      var e := s.runtimes[k].engine;
      var o := Machine.Step(e, DiskOf(s.tables, RuleAt(s, k)), Suspend);
      assert Tended(s.phase, k) && Accepts(s, k);
      AcceptingKept(s, k, Suspend);
      ReplacedKept(s, NextSite(s, SuspendNext(k)), k, o.engine);
    }
  }

  lemma RowDeletedGrounded(s: Site, r: Id)
    requires Grounded(s)
    ensures Grounded(s.(tables := RowDeleted(s.tables, r))) && SameResources(s.tables, RowDeleted(s.tables, r))
  {
    ApplyIntact(s.tables, DeleteRow(r));
  }

  lemma ErasedStep(e: Engine, d: Disk)
    requires e.pc.Idle? && !e.accepting
    ensures Machine.Step(e, d, Deactivate) == Outcome(e.(state := None), d.(row := None), Erased)
  {
  }

  lemma RetireKeeps(s: Site, k: nat)
    requires Orderly(s)
    ensures Orderly(NextSite(s, RetireNext(k)))
  {
    if s.phase.Retiring? && k in s.phase.todo && k < |s.runtimes| {
      var (t, r, e) := (s.tables, RuleAt(s, k), s.runtimes[k].engine);
      assert EngineKept(t, s.runtimes[k]) && !Tended(s.phase, k) && !Accepts(s, k);
      RowDeletedGrounded(s, r);
      ErasedStep(e, DiskOf(t, r));
      var u := NextSite(s, RetireNext(k));
      assert u.tables == RowDeleted(t, r) && u.runtimes == s.runtimes[k := s.runtimes[k].(engine := e.(state := None))];
      forall j | 0 <= j < |u.runtimes| ensures EngineKept(u.tables, u.runtimes[j]) {
        assert EngineKept(t, s.runtimes[j]) && (Accepts(s, j) <==> Tended(s.phase, j));
      }
      forall j: nat ensures !Accepts(u, j) {
        assert Accepts(s, j) <==> Tended(s.phase, j);
      }
    }
  }

  /** Where the resources and the accepting engines' parts are as before, the engines are kept. */
  lemma FramedKept(s: Site, t: Tables)
    requires EnginesKept(s) && PlansKept(s)
    requires forall k: nat :: Accepts(s, k) ==>
               SameResources(s.tables, t) && DiskOf(t, RuleAt(s, k)) == DiskOf(s.tables, RuleAt(s, k))
    requires s.phase.Building? || s.phase.Retiring? ==> SameResources(s.tables, t)
    ensures forall nextId ::
        EnginesKept(s.(tables := t, nextId := nextId)) && PlansKept(s.(tables := t, nextId := nextId))
  {
    forall nextId
      ensures EnginesKept(s.(tables := t, nextId := nextId)) && PlansKept(s.(tables := t, nextId := nextId))
    {
      var u := s.(tables := t, nextId := nextId);
      forall k | 0 <= k < |u.runtimes| ensures EngineKept(u.tables, u.runtimes[k]) {
        assert EngineKept(s.tables, s.runtimes[k]);
        assert Accepts(s, k) <==> s.runtimes[k].engine.accepting;
      }
      assert forall k: nat :: Accepts(u, k) <==> Accepts(s, k);
    }
  }

  lemma ServiceGrounded(s: Site, op: Operation)
    requires Grounded(s)
    requires IsService(op) && Admissible(s.tables, op) && (op.AddEvent? ==> op.id >= s.nextId)
    ensures Grounded(Perform(s, op)) && SameResources(s.tables, Apply(s.tables, op))
  {
    ApplyIntact(s.tables, op);
    ServiceRows(s.tables, op);
  }

  lemma ServiceRows(t: Tables, op: Operation)
    requires IsService(op)
    ensures Apply(t, op).rows == t.rows && SameResources(t, Apply(t, op))
  {
  }

  /** Services run beside living engines without touching what these work on. */
  lemma ServiceKeeps(s: Site, op: Operation)
    requires Orderly(s)
    ensures Orderly(NextSite(s, Service(op)))
  {
    if IsService(op) && Admissible(s.tables, op) && (op.AddEvent? ==> op.id >= s.nextId) {
      ServiceGrounded(s, op);
      forall k: nat | Accepts(s, k)
        ensures DiskOf(Apply(s.tables, op), RuleAt(s, k)) == DiskOf(s.tables, RuleAt(s, k))
      {
        OutsideView(s.tables, op, RuleAt(s, k));
      }
      FramedKept(s, Apply(s.tables, op));
      assert NextSite(s, Service(op)) == Perform(s, op);
    }
  }

  lemma MaintainedRows(t: Tables, op: Operation)
    requires RowsShaped(t) && IsMaintenance(op)
    ensures RowsShaped(Apply(t, op)) && forall id :: id in Apply(t, op).events ==> id in t.events
  {
  }

  lemma MaintainGrounded(s: Site, op: Operation)
    requires Grounded(s) && IsMaintenance(op)
    ensures Grounded(Perform(s, op))
  {
    ApplyIntact(s.tables, op);
    MaintainedRows(s.tables, op);
    var u := Perform(s, op);
    assert Unused(u.tables, u.nextId);
  }

  /** Maintenance runs only while no engine accepts. */
  lemma MaintainKeeps(s: Site, op: Operation)
    requires Orderly(s)
    ensures Orderly(NextSite(s, Maintain(op)))
  {
    if s.phase.Paused? && IsMaintenance(op) {
      MaintainGrounded(s, op);
      FramedKept(s, Apply(s.tables, op));
      assert NextSite(s, Maintain(op)) == Perform(s, op);
    }
  }

  /** What recovery makes of a rule's stored part. */
  function Recovery(s: Site, c: ConfiguredResources, now: Time): Outcome
  {
    Recover(c.rule, s.source, s.storeCoordinates, DiskOf(s.tables, c.rule.id), now)
  }

  lemma RecoveryGrounded(s: Site, c: ConfiguredResources, now: Time)
    requires Grounded(s) && Linkage(s.tables, c)
    ensures
      var (o, t) := (Recovery(s, c, now), WrittenBack(s.tables, c.rule.id, Recovery(s, c, now)));
      && Grounded(s.(tables := t)) && SameResources(s.tables, t)
      && o.engine.rule == c.rule && o.engine.accepting && InStep(o.engine, DiskOf(t, c.rule.id))
      && forall other :: other != c.rule.id ==> DiskOf(t, other) == DiskOf(s.tables, other)
  {
    var o := Recovery(s, c, now);
    LinkagePlaced(s.tables, c);
    RowIsOwned(s.tables, c.rule);
    RowsByDisk(s.tables);
    RecoverWrites(c.rule, s.source, s.storeCoordinates, DiskOf(s.tables, c.rule.id), now);
    assert InStep(o.engine, o.disk);
    WriteGrounded(s, c.rule, o);
  }

  /** A new engine joins for a rule that no accepting engine serves. */
  lemma BuildKeeps(s: Site, r: Id, now: Time)
    requires Orderly(s)
    ensures Orderly(NextSite(s, Build(r, now)))
  {
    if s.phase.Building? && r in s.phase.linkages {
      var c := s.phase.linkages[r];
      RecoveryGrounded(s, c, now);
      var u := NextSite(s, Build(r, now));
      JoinedKept(s, u, Recovery(s, c, now).engine, c);
    }
  }

  lemma JoinedKept(s: Site, u: Site, e: Engine, c: ConfiguredResources)
    requires EnginesKept(s) && PlansKept(s) && s.phase.Building?
    requires c.rule.id in s.phase.linkages && s.phase.linkages[c.rule.id] == c
    requires e.rule == c.rule && e.accepting && InStep(e, DiskOf(u.tables, c.rule.id))
    requires u.runtimes == s.runtimes + [RuleRuntime(c, e)]
    requires u.phase == Building(s.phase.linkages - {c.rule.id}, s.phase.built + {|s.runtimes|})
    requires forall other :: other != c.rule.id ==> DiskOf(u.tables, other) == DiskOf(s.tables, other)
    requires SameResources(s.tables, u.tables)
    ensures EnginesKept(u) && PlansKept(u)
  {
    var n := |s.runtimes|;
    forall k | 0 <= k < |u.runtimes| ensures EngineKept(u.tables, u.runtimes[k]) {
      if k < n {
        assert EngineKept(s.tables, s.runtimes[k]);
        assert Accepts(s, k) ==> RuleAt(s, k) != c.rule.id;
      }
    }
    forall k: nat ensures Accepts(u, k) <==> Accepts(s, k) || k == n {
    }
    assert RuleAt(u, n) == c.rule.id;
    forall k: nat | Accepts(s, k) ensures RuleAt(u, k) == RuleAt(s, k) != c.rule.id {
    }
    forall k: nat ensures Accepts(u, k) <==> Tended(u.phase, k) {
      assert Accepts(s, k) <==> Tended(s.phase, k);
    }
  }

  /** A storage error that ends a rebuild after an engine was built breaks the order, and only then:
      the engine goes on accepting while the manager has forgotten it. */
  predicate Harmless(s: Site, action: Action)
  {
    action.Interrupt? && s.phase.Building? && s.phase.linkages != map[] ==> s.phase.built == {}
  }

  lemma PhaseMoved(s: Site, phase: Phase)
    requires Orderly(s) && PlansKept(s.(phase := phase))
    requires forall k: nat :: Tended(phase, k) <==> Tended(s.phase, k)
    ensures Orderly(s.(phase := phase))
  {
  }

  /** Linkages that have just been read are current, and unserved while no engine accepts. */
  lemma PlansRead(s: Site, gone: set<nat>)
    requires Orderly(s) && forall k: nat :: !Tended(s.phase, k)
    ensures PlansKept(s.(phase := Building(ActiveResources(s.tables), {})))
    ensures PlansKept(s.(phase := Retiring(gone, ActiveResources(s.tables))))
    ensures s.phase.Retiring? ==> PlansKept(s.(phase := Building(s.phase.resources, {})))
  {
    ActiveIds(s.tables);
    forall phase, k: nat ensures !Accepts(s.(phase := phase), k) {
      assert Accepts(s.(phase := phase), k) == Accepts(s, k) == Tended(s.phase, k);
    }
  }

  /** The manager's own moves from one phase to the next. */
  lemma MoveKeeps(s: Site, action: Action)
    requires Orderly(s) && Harmless(s, action)
    requires
      || action.Open? || action.Request? || action.Stopped? || action.Resume? || action.Rebuild?
      || action.Built? || action.Interrupt?
    ensures Orderly(NextSite(s, action))
  {
    var phase := NextSite(s, action).phase;
    assert NextSite(s, action) == s.(phase := phase);
    if phase.Building? || phase.Retiring? {
      if phase != s.phase {
        PlansRead(s, if phase.Retiring? then phase.todo else {});
      }
    }
    PhaseMoved(s, phase);
  }

  lemma DieKeeps(s: Site)
    requires Orderly(s)
    ensures Orderly(NextSite(s, Die))
  {
    assert forall k: nat :: !Accepts(NextSite(s, Die), k);
  }

  lemma OrderlyNext(s: Site, action: Action)
    requires Orderly(s) && Harmless(s, action)
    ensures Orderly(NextSite(s, action))
  {
    match action
    case Handle(k, input) => HandleKeeps(s, k, input);
    case SuspendNext(k) => SuspendKeeps(s, k);
    case RetireNext(k) => RetireKeeps(s, k);
    case Service(op) => ServiceKeeps(s, op);
    case Maintain(op) => MaintainKeeps(s, op);
    case Build(r, now) => BuildKeeps(s, r, now);
    case Die => DieKeeps(s);
    case _ => MoveKeeps(s, action);
  }

  predicate AllHarmless(s: Site, actions: seq<Action>)
    decreases |actions|
  {
    actions == [] || (Harmless(s, actions[0]) && AllHarmless(NextSite(s, actions[0]), actions[1..]))
  }

  lemma {:induction false} OrderlyRun(s: Site, actions: seq<Action>)
    requires Orderly(s) && AllHarmless(s, actions)
    ensures Orderly(RunSite(s, actions))
    decreases |actions|
  {
    if actions != [] {
      OrderlyNext(s, actions[0]);
      OrderlyRun(NextSite(s, actions[0]), actions[1..]);
    }
  }

  // ----- the theorems -----

  /** In every reachable site at most one engine accepts for each rule; it remembers exactly the
      stored row and works for exactly the linkage that the database now holds; and while
      maintenance runs no engine accepts at all. */
  lemma DrainProtocol(source: Source, storeCoordinates: bool, actions: seq<Action>)
    requires AllHarmless(Installed(source, storeCoordinates), actions)
    ensures
      var s := RunSite(Installed(source, storeCoordinates), actions);
      && (forall j: nat, k: nat :: Accepts(s, j) && Accepts(s, k) && j != k ==> RuleAt(s, j) != RuleAt(s, k))
      && (forall k: nat :: Accepts(s, k) ==>
            && s.runtimes[k].engine.state == DiskOf(s.tables, RuleAt(s, k)).row
            && s.runtimes[k].engine.rule == s.runtimes[k].resources.rule
            && Linkage(s.tables, s.runtimes[k].resources))
      && (s.phase.Paused? || s.phase.Retiring? || s.phase.Closed? ==> forall k :: !Accepts(s, k))
  {
    OrderlyRun(Installed(source, storeCoordinates), actions);
    var s := RunSite(Installed(source, storeCoordinates), actions);
    forall k: nat | Accepts(s, k) ensures EngineKept(s.tables, s.runtimes[k]) {
    }
  }

  /** In every such site no engine accepts for a rule that is switched off, or whose tracker, place or journal
      is switched off. */
  lemma SwitchedOffIsNotServed(source: Source, storeCoordinates: bool, actions: seq<Action>, k: nat)
    requires AllHarmless(Installed(source, storeCoordinates), actions)
    requires Accepts(RunSite(Installed(source, storeCoordinates), actions), k)
    ensures
      var (s, r) :=
        (RunSite(Installed(source, storeCoordinates), actions),
         RuleAt(RunSite(Installed(source, storeCoordinates), actions), k));
      && r in s.tables.rules && s.runtimes[k].engine.rule == s.tables.rules[r] && s.tables.rules[r].enabled
      && var rule := s.tables.rules[r];
         && rule.tracker in s.tables.trackers && s.tables.trackers[rule.tracker].enabled
         && rule.place in s.tables.places && s.tables.places[rule.place].enabled
         && rule.journal in s.tables.journals && s.tables.journals[rule.journal].enabled
  {
    DrainProtocol(source, storeCoordinates, actions);
    var s := RunSite(Installed(source, storeCoordinates), actions);
    OrderlyRun(Installed(source, storeCoordinates), actions);
    ActiveExactly(s.tables, RuleAt(s, k));
  }

  /** Once suspended, an engine never accepts again. */
  lemma {:induction false} SuspendedForGood(s: Site, k: nat, actions: seq<Action>)
    requires Orderly(s) && AllHarmless(s, actions) && Die !in actions
    requires k < |s.runtimes| && !Accepts(s, k)
    ensures
      var u := RunSite(s, actions);
      && k < |u.runtimes| && !Accepts(u, k)
      && forall input :: NextSite(u, Action.Handle(k, input)) == u
                         && (!input.Deactivate? ==> StepOf(u, k, input).effect.Nothing?)
    decreases |actions|
  {
    if actions == [] {
      forall input
        ensures NextSite(s, Action.Handle(k, input)) == s
                && (!input.Deactivate? ==> StepOf(s, k, input).effect.Nothing?)
      {
        SuspendedIsInert(s, k, input);
      }
    } else {
      OrderlyNext(s, actions[0]);
      assert Die !in actions[1..];
      SuspendedStays(s, k, actions[0]);
      SuspendedForGood(NextSite(s, actions[0]), k, actions[1..]);
    }
  }

  lemma SuspendedStays(s: Site, k: nat, action: Action)
    requires Orderly(s) && !action.Die?
    requires k < |s.runtimes| && !Accepts(s, k)
    ensures k < |NextSite(s, action).runtimes| && !Accepts(NextSite(s, action), k)
  {
    assert EngineKept(s.tables, s.runtimes[k]);
    if action.Handle? && action.index == k {
      SuspendedIsInert(s, k, action.input);
    }
  }

  // ----- no linkage is left unserved -----

  predicate ServedBy(s: Site, k: nat, r: Id)
  {
    Accepts(s, k) && RuleAt(s, k) == r
  }

  ghost predicate Served(s: Site, r: Id)
  {
    exists k: nat :: ServedBy(s, k, r)
  }

  /** Every active linkage is served, or will be by the rebuild in progress. */
  ghost predicate Attentive(s: Site)
  {
    match s.phase
    case Running(_) => forall r :: r in ActiveResources(s.tables) ==> Served(s, r)
    case Building(linkages, _) => forall r :: r in ActiveResources(s.tables) ==> r in linkages || Served(s, r)
    case Retiring(_, resources) => forall r :: r in ActiveResources(s.tables) ==> r in resources
    case _ => true
  }

  /** Where no engine is lost and the resources are as before, attention does not lapse. */
  lemma StillAttentive(s: Site, u: Site)
    requires Attentive(s) && u.phase == s.phase && SameResources(s.tables, u.tables)
    requires forall k: nat, r :: ServedBy(s, k, r) ==> ServedBy(u, k, r)
    ensures Attentive(u)
  {
    forall r | Served(s, r) ensures Served(u, r) {
      var k: nat :| ServedBy(s, k, r);
      assert ServedBy(u, k, r);
    }
  }

  lemma HandleAttentive(s: Site, k: nat, input: Input)
    requires Orderly(s) && Attentive(s)
    ensures Attentive(NextSite(s, Action.Handle(k, input)))
  {
    if Accepts(s, k) {
      if FromOutside(s, input) {
        AcceptingKept(s, k, input);
        StillAttentive(s, WithEngine(s, k, StepOf(s, k, input)));
      }
    } else if k < |s.runtimes| {
      SuspendedIsInert(s, k, input);
    }
  }

  lemma ServiceAttentive(s: Site, op: Operation)
    requires Orderly(s) && Attentive(s)
    ensures Attentive(NextSite(s, Service(op)))
  {
    if Serviceable(s, op) {
      ServiceGrounded(s, op);
      StillAttentive(s, Perform(s, op));
    }
  }

  lemma BuildAttentive(s: Site, r: Id, now: Time)
    requires Orderly(s) && Attentive(s)
    ensures Attentive(NextSite(s, Build(r, now)))
  {
    if s.phase.Building? && r in s.phase.linkages {
      var (c, u) := (s.phase.linkages[r], NextSite(s, Build(r, now)));
      RecoveryGrounded(s, c, now);
      JoinedAttentive(s, u, Recovery(s, c, now).engine, c);
    }
  }

  lemma JoinedAttentive(s: Site, u: Site, e: Engine, c: ConfiguredResources)
    requires Attentive(s) && s.phase.Building? && e.accepting && SameResources(s.tables, u.tables)
    requires u.runtimes == s.runtimes + [RuleRuntime(c, e)]
    requires u.phase == Building(s.phase.linkages - {c.rule.id}, s.phase.built + {|s.runtimes|})
    ensures Attentive(u)
  {
    assert ServedBy(u, |s.runtimes|, c.rule.id);
    forall q | Served(s, q) ensures Served(u, q) {
      var k: nat :| ServedBy(s, k, q);
      assert ServedBy(u, k, q);
    }
  }

  lemma MoveAttentive(s: Site, action: Action)
    requires Attentive(s) && !action.Interrupt?
    requires
      !action.Handle? && !action.Service? && !action.Build? && !action.SuspendNext? && !action.RetireNext?
    ensures Attentive(NextSite(s, action))
  {
    var u := NextSite(s, action);
    if !action.Maintain? && !action.Die? {
      assert u == s.(phase := u.phase);
      forall r | Served(s, r) ensures Served(u, r) {
        var k: nat :| ServedBy(s, k, r);
        assert ServedBy(u, k, r);
      }
    }
  }

  lemma RetireAttentive(s: Site, k: nat)
    requires Attentive(s)
    ensures Attentive(NextSite(s, RetireNext(k)))
  {
    if Retirable(s, k) {
      var u := RetireOne(s, k);
      WrittenBackResources(s.tables, RuleAt(s, k), StepOf(s, k, Deactivate));
      SameActiveResources(s.tables, u.tables);
      assert Attentive(u);
    }
  }

  lemma WrittenBackResources(t: Tables, rule: Id, o: Outcome)
    ensures SameResources(t, WrittenBack(t, rule, o))
  {
    if o.effect.Committed? {
      assert WrittenBack(t, rule, o) == ConfirmCommitted(t, o.effect.transition);
    }
  }

  lemma SameActiveResources(t: Tables, u: Tables)
    requires SameResources(t, u)
    ensures ActiveResources(u) == ActiveResources(t)
  {
  }

  lemma AttentiveNext(s: Site, action: Action)
    requires Orderly(s) && Attentive(s) && !action.Interrupt?
    ensures Attentive(NextSite(s, action))
  {
    match action
    case Handle(k, input) => HandleAttentive(s, k, input);
    case Service(op) => ServiceAttentive(s, op);
    case Build(r, now) => BuildAttentive(s, r, now);
    case SuspendNext(k) => assert NextSite(s, action).phase.Stopping? || NextSite(s, action) == s;
    case RetireNext(k) => RetireAttentive(s, k);
    case _ => MoveAttentive(s, action);
  }

  predicate Uninterrupted(actions: seq<Action>)
  {
    forall k :: 0 <= k < |actions| ==> !actions[k].Interrupt?
  }

  lemma {:induction false} AttentiveRun(s: Site, actions: seq<Action>)
    requires Orderly(s) && Attentive(s) && Uninterrupted(actions)
    ensures Orderly(RunSite(s, actions)) && Attentive(RunSite(s, actions))
    decreases |actions|
  {
    if actions != [] {
      assert !actions[0].Interrupt?;
      OrderlyNext(s, actions[0]);
      AttentiveNext(s, actions[0]);
      AttentiveRun(NextSite(s, actions[0]), actions[1..]);
    }
  }

  /** While the refresh lock is free, each active linkage is served by exactly one accepting engine. */
  lemma ExactlyOneEngine(source: Source, storeCoordinates: bool, actions: seq<Action>, r: Id)
    requires Uninterrupted(actions)
    requires
      var s := RunSite(Installed(source, storeCoordinates), actions);
      s.phase.Running? && r in ActiveResources(s.tables)
    ensures
      var s := RunSite(Installed(source, storeCoordinates), actions);
      exists k: nat :: ServedBy(s, k, r) && forall j: nat :: ServedBy(s, j, r) ==> j == k
  {
    AttentiveRun(Installed(source, storeCoordinates), actions);
    var s := RunSite(Installed(source, storeCoordinates), actions);
    assert Served(s, r);
    var k: nat :| ServedBy(s, k, r);
    assert forall j: nat :: ServedBy(s, j, r) ==> j == k;
  }
}
