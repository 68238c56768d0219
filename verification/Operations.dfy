/** Every operation of the database, and what holds after any sequence of them. */
module Operations {
  import opened Wrappers
  import opened Models
  import opened RuntimeStates
  import opened Machine
  import opened Tables
  import opened Audit

  datatype Operation =
    | Confirm(transition: ConfirmedTransition)
    | Save(state: RuntimeState)
    | DeleteRow(ruleId: Id)
    | AddEvent(id: Id, event: LocationEvent)
    | ChangeStatus(mutation: Mutation)
    | Purge(before: Time, journal: Option<Id>)
    | Reset
    | UpsertTracker(id: Id, resource: Resource)
    | UpsertPlace(id: Id, resource: Resource)
    | UpsertJournal(id: Id, resource: Resource)
    | UpsertRule(definition: Rule)

  /** The database after an operation; one that a constraint or a check refuses changes nothing. */
  function Apply(t: Tables, op: Operation): Tables
  {
    match op
    case Confirm(c) => if !Replayed(t, c) && Committable(t, c) then ConfirmCommitted(t, c) else t
    case Save(s) => if RowLinked(t, s) then Saved(t, s) else t
    case DeleteRow(rule) => RowDeleted(t, rule)
    case AddEvent(id, e) => if Insertable(t, id, e) then Inserted(t, id, e) else t
    case ChangeStatus(m) => if Mutable(t, m) then StatusChanged(t, m) else t
    case Purge(before, journal) => Purged(t, Selected(t, before, journal))
    case Reset => Emptied()
    case UpsertTracker(id, r) => t.(trackers := t.trackers[id := r])
    case UpsertPlace(id, r) => t.(places := t.places[id := r])
    case UpsertJournal(id, r) => t.(journals := t.journals[id := r])
    case UpsertRule(rule) => if RuleLinked(t, rule) then t.(rules := t.rules[rule.id := rule]) else t
  }

  /** What the callers of the storage layer guarantee: a saved state describes its last event while that
      event is retained, a transition carries a matching state, and manual events are built by the
      service. A save whose last event is gone is refused by the database itself. */
  predicate Admissible(t: Tables, op: Operation)
  {
    match op
    case Confirm(c) => WellBuilt(c)
    case Save(s) => RowLinked(t, s) ==> LastEventMatches(t, s)
    case AddEvent(_, e) => e.originalEventId.None? && e.status == Confirmed && e.updatedAt == e.createdAt
    case _ => true
  }

  predicate Intact(t: Tables)
  {
    Consistent(t) && Audited(t)
  }

  /** The same journal and runtime rows over resources of which none is missing. */
  predicate Extended(t: Tables, u: Tables)
  {
    && u.events == t.events && u.revisions == t.revisions && u.rows == t.rows
    && t.trackers.Keys <= u.trackers.Keys && t.places.Keys <= u.places.Keys
    && t.journals.Keys <= u.journals.Keys && t.rules.Keys <= u.rules.Keys
  }

  lemma ExtendedIntact(t: Tables, u: Tables)
    requires Intact(t) && Extended(t, u)
    requires forall r :: r in u.rules ==> u.rules[r].id == r && RuleLinked(u, u.rules[r])
    ensures Intact(u)
  {
    forall id | id in u.events ensures EventLinked(u, u.events[id]) {
      assert EventLinked(t, t.events[id]);
    }
    forall r | r in u.rows ensures RowLinked(u, u.rows[r]) && LastEventMatches(u, u.rows[r]) {
      assert RowLinked(t, t.rows[r]) && LastEventMatches(t, t.rows[r]);
    }
    forall id | id in u.events ensures Chain(Trail(u.revisions, id), u.events[id]) {
      assert Chain(Trail(t.revisions, id), t.events[id]);
    }
    assert UniqueKeys(t) && UniqueKeys(u);
  }

  lemma UpsertIntact(t: Tables, op: Operation)
    requires Intact(t) && (op.UpsertTracker? || op.UpsertPlace? || op.UpsertJournal? || op.UpsertRule?)
    ensures Intact(Apply(t, op))
  {
    var u := Apply(t, op);
    forall r | r in u.rules ensures u.rules[r].id == r && RuleLinked(u, u.rules[r]) {
      assert r in t.rules ==> RuleLinked(t, t.rules[r]) && t.rules[r].id == r;
    }
    ExtendedIntact(t, u);
  }

  lemma ApplyIntact(t: Tables, op: Operation)
    requires Intact(t) && Admissible(t, op)
    ensures Intact(Apply(t, op))
  {
    match op
    case Confirm(c) =>
      if !Replayed(t, c) && Committable(t, c) {
        ConfirmConsistent(t, c);
        InsertedAudited(t, c.eventId, EventOf(c));
      }
    case Save(s) =>
      if RowLinked(t, s) {
        SavedConsistent(t, s);
      }
    case DeleteRow(rule) => RowDeletedConsistent(t, rule);
    case AddEvent(id, e) =>
      if Insertable(t, id, e) {
        InsertedConsistent(t, id, e);
        InsertedAudited(t, id, e);
      }
    case ChangeStatus(m) =>
      if Mutable(t, m) {
        StatusConsistent(t, m);
        StatusAudited(t, m);
      }
    case Purge(before, journal) =>
      PurgedConsistent(t, Selected(t, before, journal));
      PurgedAudited(t, Selected(t, before, journal));
    case Reset =>
    case _ => UpsertIntact(t, op);
  }

  function ApplyAll(t: Tables, ops: seq<Operation>): Tables
    decreases |ops|
  {
    if ops == [] then t else ApplyAll(Apply(t, ops[0]), ops[1..])
  }

  predicate AllAdmissible(t: Tables, ops: seq<Operation>)
    decreases |ops|
  {
    ops == [] || (Admissible(t, ops[0]) && AllAdmissible(Apply(t, ops[0]), ops[1..]))
  }

  lemma {:induction false} IntactRun(t: Tables, ops: seq<Operation>)
    requires Intact(t) && AllAdmissible(t, ops)
    ensures Intact(ApplyAll(t, ops))
    decreases |ops|
  {
    if ops != [] {
      ApplyIntact(t, ops[0]);
      IntactRun(Apply(t, ops[0]), ops[1..]);
    }
  }

  // ----- what an engine remembers -----

  /** A fresh event is stored under this identifier. */
  predicate Draws(op: Operation, id: Id)
  {
    (op.Confirm? && op.transition.eventId == id) || (op.AddEvent? && op.id == id)
  }

  /** The state describes its last event, if the database still has it. */
  predicate Recalls(t: Tables, s: RuntimeState)
  {
    (s.lastEventId.Some? ==> s.lastEventId.value in t.events) ==> LastEventMatches(t, s)
  }

  lemma RecallsNext(t: Tables, op: Operation, s: RuntimeState)
    requires Recalls(t, s) && (s.lastEventId.Some? ==> !Draws(op, s.lastEventId.value))
    ensures Recalls(Apply(t, op), s)
  {
    if s.lastEventId.Some? && s.lastEventId.value in Apply(t, op).events {
      EventOnceStored(t, op, s.lastEventId.value);
    }
  }

  /** An event that is there was there before, or is new; its type, rule, key and time never change. */
  lemma EventOnceStored(t: Tables, op: Operation, id: Id)
    requires id in Apply(t, op).events && !Draws(op, id)
    ensures id in t.events && SameFacts(t.events[id], Apply(t, op).events[id])
  {
    match op
    case Purge(before, journal) => PurgedFacts(t, Selected(t, before, journal), id);
    case ChangeStatus(m) =>
      if Mutable(t, m) {
        assert Apply(t, op) == StatusChanged(t, m);
      }
    case Confirm(c) =>
      if !Replayed(t, c) && Committable(t, c) {
        assert Apply(t, op).events == t.events[c.eventId := EventOf(c)];
      }
    case AddEvent(added, e) =>
      if Insertable(t, added, e) {
        assert Apply(t, op).events == t.events[added := e];
      }
    case _ => OthersKeepEvents(t, op);
  }

  lemma OthersKeepEvents(t: Tables, op: Operation)
    requires !op.Confirm? && !op.AddEvent? && !op.ChangeStatus? && !op.Purge?
    ensures Apply(t, op).events == if op.Reset? then map[] else t.events
  {
  }

  lemma PurgedFacts(t: Tables, gone: set<Id>, id: Id)
    requires id in Purged(t, gone).events
    ensures id in t.events && SameFacts(t.events[id], Purged(t, gone).events[id])
  {
  }

  predicate SameFacts(a: LocationEvent, b: LocationEvent)
  {
    && a.ruleId == b.ruleId && a.eventType == b.eventType && a.confirmedAt == b.confirmedAt
    && a.generation == b.generation && a.deadline == b.deadline
  }

  lemma {:induction false} RecallsRun(t: Tables, ops: seq<Operation>, s: RuntimeState)
    requires Recalls(t, s)
    requires s.lastEventId.Some? ==> forall k :: 0 <= k < |ops| ==> !Draws(ops[k], s.lastEventId.value)
    ensures Recalls(ApplyAll(t, ops), s)
    decreases |ops|
  {
    if ops != [] {
      RecallsNext(t, ops[0], s);
      RecallsRun(Apply(t, ops[0]), ops[1..], s);
    }
  }

  /** However long an engine holds on to a state that once matched its row, and whatever is done to the
      database meanwhile: saving it is admissible, and once its last event is gone changes nothing. */
  lemma StaleSaves(t: Tables, ops: seq<Operation>, s: RuntimeState)
    requires LastEventMatches(t, s)
    requires s.lastEventId.Some? ==> forall k :: 0 <= k < |ops| ==> !Draws(ops[k], s.lastEventId.value)
    ensures
      var u := ApplyAll(t, ops);
      && Admissible(u, Save(s))
      && (s.lastEventId.Some? && s.lastEventId.value !in u.events ==> Apply(u, Save(s)) == u)
  {
    RecallsRun(t, ops, s);
  }

  // ----- after any sequence of operations -----

  /** From a fresh database, every sequence of operations keeps all foreign keys, the transition
      key unique and each runtime row's last event true to a retained event of its rule. */
  lemma DatabaseInvariant(ops: seq<Operation>)
    requires AllAdmissible(Emptied(), ops)
    ensures Consistent(ApplyAll(Emptied(), ops))
  {
    IntactRun(Emptied(), ops);
  }

  /** And every retained event's revisions chain from its first state to its current one, so that
      their number tells its status. */
  lemma AuditChain(ops: seq<Operation>, id: Id)
    requires AllAdmissible(Emptied(), ops) && id in ApplyAll(Emptied(), ops).events
    ensures
      var t := ApplyAll(Emptied(), ops);
      var trail := Trail(t.revisions, id);
      && Chain(trail, t.events[id])
      && t.events[id].status == (if |trail| % 2 == 0 then Confirmed else Excluded)
  {
    IntactRun(Emptied(), ops);
    ParityIsStatus(ApplyAll(Emptied(), ops), id);
  }

  /** A repeated status change adds nothing. */
  lemma RepeatedMutationIsIdle(t: Tables, m: Mutation, again: Mutation)
    requires m.eventId == again.eventId && m.target == again.target
    requires Mutable(t, m)
    ensures Apply(Apply(t, ChangeStatus(m)), ChangeStatus(again)) == Apply(t, ChangeStatus(m))
  {
  }

  // ----- several engines on one database -----

  lemma ApplyUnique(t: Tables, op: Operation)
    requires UniqueKeys(t)
    ensures UniqueKeys(Apply(t, op))
  {
    match op
    case Confirm(c) =>
      if !Replayed(t, c) && Committable(t, c) {
        InsertedUnique(t, c.eventId, EventOf(c));
      }
    case AddEvent(id, e) =>
      if Insertable(t, id, e) {
        InsertedUnique(t, id, e);
      }
    case _ => NoneNewUnique(t, op);
  }

  lemma NoneNewUnique(t: Tables, op: Operation)
    requires UniqueKeys(t) && !op.Confirm? && !op.AddEvent?
    ensures UniqueKeys(Apply(t, op))
  {
    var u := Apply(t, op);
    forall id | id in u.events ensures id in t.events && TransitionKey(u.events[id]) == TransitionKey(t.events[id]) {
      EventOnceStored(t, op, id);
    }
  }

  lemma {:induction false} UniqueRun(t: Tables, ops: seq<Operation>)
    requires UniqueKeys(t)
    ensures UniqueKeys(ApplyAll(t, ops))
    decreases |ops|
  {
    if ops != [] {
      ApplyUnique(t, ops[0]);
      UniqueRun(Apply(t, ops[0]), ops[1..]);
    }
  }

  /** Whatever engines share the database and whatever they try to write, it holds at most one event for
      a rule, generation and deadline. */
  lemma OneEventPerKey(ops: seq<Operation>, i: Id, j: Id)
    requires
      var t := ApplyAll(Emptied(), ops);
      && i in t.events && j in t.events
      && TransitionKey(t.events[i]).Some? && TransitionKey(t.events[i]) == TransitionKey(t.events[j])
    ensures i == j
  {
    UniqueRun(Emptied(), ops);
  }

  // ----- the view of one rule's engine -----

  lemma ConfirmView(t: Tables, c: ConfirmedTransition, rule: Id)
    requires Committable(t, c) && WellBuilt(c)
    ensures
      DiskOf(ConfirmCommitted(t, c), rule) ==
      if rule == c.ruleId then
        Disk(Some(c.runtimeState), DiskOf(t, rule).keys + {Key(c.generation, c.confirmedDeadline)})
      else DiskOf(t, rule)
  {
    var u := ConfirmCommitted(t, c);
    var added := Key(c.generation, c.confirmedDeadline);
    forall key ensures key in Keys(u, rule) <==> key in Keys(t, rule) || (rule == c.ruleId && key == added) {
      KeysMeaning(u, rule, key);
      KeysMeaning(t, rule, key);
      if HasKey(t, rule, key) {
        var id :| id in t.events && TransitionKey(t.events[id]) == Some((rule, key));
        assert id in u.events && TransitionKey(u.events[id]) == Some((rule, key));
      }
      if rule == c.ruleId && key == added {
        assert TransitionKey(u.events[c.eventId]) == Some((rule, key));
      }
    }
    assert Keys(u, rule) == if rule == c.ruleId then Keys(t, rule) + {added} else Keys(t, rule);
  }

  lemma SameKeys(t: Tables, u: Tables, rule: Id)
    requires forall id :: id in t.events ==>
        id in u.events && TransitionKey(t.events[id]) == TransitionKey(u.events[id])
    requires forall id :: id in u.events && TransitionKey(u.events[id]).Some? ==> id in t.events
    ensures Keys(t, rule) == Keys(u, rule)
  {
  }

  lemma SameRowsAndKeys(t: Tables, u: Tables, rule: Id)
    requires t.rows == u.rows && Keys(t, rule) == Keys(u, rule)
    ensures DiskOf(t, rule) == DiskOf(u, rule)
  {
  }

  lemma InsertedView(t: Tables, id: Id, e: LocationEvent, rule: Id)
    requires Insertable(t, id, e) && TransitionKey(e).None?
    ensures DiskOf(Inserted(t, id, e), rule) == DiskOf(t, rule)
  {
    SameKeys(t, Inserted(t, id, e), rule);
  }

  lemma StatusView(t: Tables, m: Mutation, rule: Id)
    requires Mutable(t, m)
    ensures DiskOf(StatusChanged(t, m), rule) == DiskOf(t, rule)
  {
    SameKeys(t, StatusChanged(t, m), rule);
  }

  lemma SavedView(t: Tables, s: RuntimeState, rule: Id)
    ensures DiskOf(Saved(t, s), rule) == if rule == s.ruleId then DiskOf(t, rule).(row := Some(s)) else DiskOf(t, rule)
  {
  }

  lemma RowDeletedView(t: Tables, deleted: Id, rule: Id)
    ensures
      DiskOf(RowDeleted(t, deleted), rule) ==
      if rule == deleted then DiskOf(t, rule).(row := None) else DiskOf(t, rule)
  {
  }

  /** Manual events, status changes and resource updates may run beside living engines: no engine's
      view of the database changes. */
  lemma OutsideView(t: Tables, op: Operation, rule: Id)
    requires op.AddEvent? ==> TransitionKey(op.event).None?
    requires
      op.AddEvent? || op.ChangeStatus? || op.UpsertTracker? || op.UpsertPlace? || op.UpsertJournal? || op.UpsertRule?
    ensures DiskOf(Apply(t, op), rule) == DiskOf(t, rule)
  {
    match op
    case AddEvent(id, e) =>
      if Insertable(t, id, e) {
        InsertedView(t, id, e, rule);
      }
    case ChangeStatus(m) =>
      if Mutable(t, m) {
        StatusView(t, m, rule);
      }
    case _ =>
      SameKeys(t, Apply(t, op), rule);
      SameRowsAndKeys(t, Apply(t, op), rule);
  }

  /** A purge only takes keys away and may clear the row's last event. */
  lemma PurgeView(t: Tables, before: Time, journal: Option<Id>, rule: Id)
    requires Consistent(t)
    ensures
      var (d, d') := (DiskOf(t, rule), DiskOf(Apply(t, Purge(before, journal)), rule));
      && d'.keys <= d.keys
      && (d'.row == d.row || (d.row.Some? && d'.row == Some(WithoutLastEvent(d.row.value))))
  {
  }
}
