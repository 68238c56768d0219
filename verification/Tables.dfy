/** The database as a value: its tables, the invariant that its constraints and
    its users keep together, and what each operation makes of it. */
module Tables {
  import opened Wrappers
  import opened Models
  import opened RuntimeStates
  import opened Machine

  /** A tracker, place or journal; only its name and its switch matter here. */
  datatype Resource = Resource(name: string, enabled: bool)

  /** What an audit revision records of an event. */
  datatype AuditState = AuditState(status: EventStatus, changedAt: Time)

  datatype Revision = Revision(
    id: Id,
    eventId: Id,
    oldData: AuditState,
    newData: AuditState,
    reason: Option<string>,
    changedBy: Option<string>,
    changedAt: Time)

  datatype Tables = Tables(
    trackers: map<Id, Resource>,
    places: map<Id, Resource>,
    journals: map<Id, Resource>,
    rules: map<Id, Rule>,
    events: map<Id, LocationEvent>,
    revisions: seq<Revision>,
    rows: map<Id, RuntimeState>,
    versions: seq<nat>)

  const SCHEMA_VERSION: nat := 1

  // ----- the invariant -----

  predicate RuleLinked(t: Tables, rule: Rule)
  {
    rule.tracker in t.trackers && rule.place in t.places && rule.journal in t.journals
  }

  predicate EventLinked(t: Tables, e: LocationEvent)
  {
    && e.journalId in t.journals && e.trackerId in t.trackers && e.placeId in t.places
    && (e.ruleId.Some? ==> e.ruleId.value in t.rules)
    && (e.originalEventId.Some? ==> e.originalEventId.value in t.events)
  }

  predicate RowLinked(t: Tables, s: RuntimeState)
  {
    s.ruleId in t.rules && (s.lastEventId.Some? ==> s.lastEventId.value in t.events)
  }

  /** Every foreign key finds its row. */
  predicate Linked(t: Tables)
  {
    && (forall r :: r in t.rules ==> t.rules[r].id == r && RuleLinked(t, t.rules[r]))
    && (forall id :: id in t.events ==> EventLinked(t, t.events[id]))
    && (forall k :: 0 <= k < |t.revisions| ==> t.revisions[k].eventId in t.events)
    && (forall r :: r in t.rows ==> t.rows[r].ruleId == r && RowLinked(t, t.rows[r]))
  }

  /** The columns of the partial unique index, when none of them is null. */
  function TransitionKey(e: LocationEvent): Option<(Id, Key)>
  {
    if e.ruleId.Some? && e.generation.Some? && e.deadline.Some? then
      Some((e.ruleId.value, Key(e.generation.value, e.deadline.value)))
    else None
  }

  predicate UniqueKeys(t: Tables)
  {
    forall i, j :: i in t.events && j in t.events && i != j && TransitionKey(t.events[i]).Some? ==>
      TransitionKey(t.events[i]) != TransitionKey(t.events[j])
  }

  /** The last-event columns of a runtime row describe a retained event of its rule, or are all null. */
  predicate LastEventMatches(t: Tables, s: RuntimeState)
  {
    match s.lastEventId
    case None => s.lastEventType.None? && s.lastEventAt.None?
    case Some(id) =>
      && id in t.events
      && t.events[id].ruleId == Some(s.ruleId)
      && s.lastEventType == Some(t.events[id].eventType)
      && s.lastEventAt == Some(t.events[id].confirmedAt)
  }

  predicate Consistent(t: Tables)
  {
    && Linked(t)
    && UniqueKeys(t)
    && (forall id :: id in t.events ==> t.events[id].originalEventId.None?)
    && (forall r :: r in t.rows ==> LastEventMatches(t, t.rows[r]))
  }

  // ----- the part of the database that one rule's engine works on -----

  predicate HasKey(t: Tables, rule: Id, key: Key)
  {
    exists id :: id in t.events && TransitionKey(t.events[id]) == Some((rule, key))
  }

  function Keys(t: Tables, rule: Id): set<Key>
  {
    set id | id in t.events && TransitionKey(t.events[id]).Some? && TransitionKey(t.events[id]).value.0 == rule
    :: TransitionKey(t.events[id]).value.1
  }

  function DiskOf(t: Tables, rule: Id): Disk
  {
    Disk(if rule in t.rows then Some(t.rows[rule]) else None, Keys(t, rule))
  }

  lemma KeysMeaning(t: Tables, rule: Id, key: Key)
    ensures key in Keys(t, rule) <==> HasKey(t, rule, key)
  {
  }

  // ----- operations -----

  /** The keys and references that an insert of this event needs. */
  predicate Insertable(t: Tables, id: Id, e: LocationEvent)
  {
    && id !in t.events && EventLinked(t, e)
    && (TransitionKey(e).Some? ==> !HasKey(t, TransitionKey(e).value.0, TransitionKey(e).value.1))
  }

  function Inserted(t: Tables, id: Id, e: LocationEvent): Tables
  {
    t.(events := t.events[id := e])
  }

  function Saved(t: Tables, s: RuntimeState): Tables
  {
    t.(rows := t.rows[s.ruleId := s])
  }

  function RowDeleted(t: Tables, rule: Id): Tables
  {
    t.(rows := t.rows - {rule})
  }

  predicate Replayed(t: Tables, c: ConfirmedTransition)
  {
    HasKey(t, c.ruleId, Key(c.generation, c.confirmedDeadline))
  }

  /** A new transition can be committed: its event can be inserted and its row written. */
  predicate Committable(t: Tables, c: ConfirmedTransition)
  {
    Insertable(t, c.eventId, EventOf(c)) && RowLinked(Inserted(t, c.eventId, EventOf(c)), c.runtimeState)
  }

  function ConfirmCommitted(t: Tables, c: ConfirmedTransition): Tables
  {
    Saved(Inserted(t, c.eventId, EventOf(c)), c.runtimeState)
  }

  /** The runtime state that travels with a transition names its event. */
  predicate WellBuilt(c: ConfirmedTransition)
  {
    && c.runtimeState.ruleId == c.ruleId
    && c.runtimeState.lastEventId == Some(c.eventId)
    && c.runtimeState.lastEventType == Some(c.eventType)
    && c.runtimeState.lastEventAt == Some(c.confirmedAt)
  }

  function ManualEvent(
    journal: Id, tracker: Id, place: Id, occurredAt: Time, confirmedAt: Time,
    coordinates: Option<Coordinates>, accuracy: Option<real>, note: Option<string>): LocationEvent
  {
    LocationEvent(journal, None, tracker, place, Manual, occurredAt, confirmedAt, coordinates, accuracy,
                  ManualEntry, Confirmed, note, None, None, None, confirmedAt, confirmedAt)
  }

  /** A requested change of an event's status, with its audit context and a drawn revision identifier. */
  datatype Mutation = Mutation(
    eventId: Id,
    target: EventStatus,
    changedAt: Time,
    changedBy: Option<string>,
    reason: Option<string>,
    revision: Id)

  predicate RevisionExists(t: Tables, revision: Id)
  {
    exists k :: 0 <= k < |t.revisions| && t.revisions[k].id == revision
  }

  predicate Mutable(t: Tables, m: Mutation)
  {
    m.eventId in t.events && t.events[m.eventId].status != m.target && !RevisionExists(t, m.revision)
  }

  function RevisionOf(e: LocationEvent, m: Mutation): Revision
  {
    Revision(m.revision, m.eventId, AuditState(e.status, e.updatedAt), AuditState(m.target, m.changedAt),
             m.reason, m.changedBy, m.changedAt)
  }

  function StatusUpdated(t: Tables, m: Mutation): Tables
    requires m.eventId in t.events
  {
    t.(events := t.events[m.eventId := t.events[m.eventId].(status := m.target, updatedAt := m.changedAt)])
  }

  function StatusChanged(t: Tables, m: Mutation): Tables
    requires m.eventId in t.events
  {
    StatusUpdated(t, m).(revisions := t.revisions + [RevisionOf(t.events[m.eventId], m)])
  }

  /** The events a purge selects: strictly before the instant, in the journal if one is named. */
  function Selected(t: Tables, before: Time, journal: Option<Id>): set<Id>
  {
    set id | id in t.events && t.events[id].occurredAt < before
        && (journal.None? || t.events[id].journalId == journal.value)
  }

  /** The revisions of events inside (or outside) a set, in order. */
  function RevisionsIn(revisions: seq<Revision>, ids: set<Id>, inside: bool): seq<Revision>
  {
    if revisions == [] then []
    else
      var rest := RevisionsIn(revisions[..|revisions| - 1], ids, inside);
      var r := revisions[|revisions| - 1];
      if (r.eventId in ids) == inside then rest + [r] else rest
  }

  function WithoutLastEvent(s: RuntimeState): RuntimeState
  {
    s.(lastEventId := None, lastEventType := None, lastEventAt := None)
  }

  function RowsCleared(rows: map<Id, RuntimeState>, gone: set<Id>): map<Id, RuntimeState>
  {
    map r | r in rows ::
      if rows[r].lastEventId.Some? && rows[r].lastEventId.value in gone then WithoutLastEvent(rows[r]) else rows[r]
  }

  function OriginalsCleared(events: map<Id, LocationEvent>, gone: set<Id>): map<Id, LocationEvent>
  {
    map id | id in events ::
      if events[id].originalEventId.Some? && events[id].originalEventId.value in gone then
        events[id].(originalEventId := None)
      else events[id]
  }

  function Purged(t: Tables, gone: set<Id>): Tables
  {
    t.(revisions := RevisionsIn(t.revisions, gone, false),
       rows := RowsCleared(t.rows, gone),
       events := OriginalsCleared(t.events, gone) - gone)
  }

  function Emptied(): Tables
  {
    Tables(map[], map[], map[], map[], map[], [], map[], [SCHEMA_VERSION])
  }

  // ----- operations keep the invariant -----

  lemma InsertedUnique(t: Tables, id: Id, e: LocationEvent)
    requires UniqueKeys(t) && Insertable(t, id, e)
    ensures UniqueKeys(Inserted(t, id, e))
  {
  }

  lemma InsertedConsistent(t: Tables, id: Id, e: LocationEvent)
    requires Consistent(t) && Insertable(t, id, e) && e.originalEventId.None?
    ensures Consistent(Inserted(t, id, e))
  {
    InsertedUnique(t, id, e);
    assert Linked(Inserted(t, id, e));
  }

  lemma SavedConsistent(t: Tables, s: RuntimeState)
    requires Consistent(t) && RowLinked(t, s) && LastEventMatches(t, s)
    ensures Consistent(Saved(t, s))
  {
  }

  lemma ConfirmConsistent(t: Tables, c: ConfirmedTransition)
    requires Consistent(t) && Committable(t, c) && WellBuilt(c)
    ensures Consistent(ConfirmCommitted(t, c))
  {
    var u := Inserted(t, c.eventId, EventOf(c));
    InsertedConsistent(t, c.eventId, EventOf(c));
    SavedConsistent(u, c.runtimeState);
  }

  lemma RowDeletedConsistent(t: Tables, rule: Id)
    requires Consistent(t)
    ensures Consistent(RowDeleted(t, rule))
  {
  }

  /** The columns that constraints look at. */
  predicate SameSkeleton(a: LocationEvent, b: LocationEvent)
  {
    && a.journalId == b.journalId && a.ruleId == b.ruleId && a.trackerId == b.trackerId && a.placeId == b.placeId
    && a.eventType == b.eventType && a.confirmedAt == b.confirmedAt
    && a.originalEventId == b.originalEventId && a.generation == b.generation && a.deadline == b.deadline
  }

  lemma EventUpdatedUnique(t: Tables, id: Id, e: LocationEvent)
    requires UniqueKeys(t) && id in t.events && SameSkeleton(t.events[id], e)
    ensures UniqueKeys(Inserted(t, id, e))
  {
  }

  lemma EventUpdatedConsistent(t: Tables, id: Id, e: LocationEvent)
    requires Consistent(t) && id in t.events && SameSkeleton(t.events[id], e)
    ensures Consistent(Inserted(t, id, e))
  {
    EventUpdatedUnique(t, id, e);
    assert Linked(Inserted(t, id, e));
  }

  lemma StatusConsistent(t: Tables, m: Mutation)
    requires Consistent(t) && m.eventId in t.events
    ensures Consistent(StatusChanged(t, m))
  {
    EventUpdatedConsistent(t, m.eventId, t.events[m.eventId].(status := m.target, updatedAt := m.changedAt));
    RevisionsConsistent(StatusUpdated(t, m), t.revisions + [RevisionOf(t.events[m.eventId], m)]);
  }

  lemma RevisionsConsistent(t: Tables, revisions: seq<Revision>)
    requires Consistent(t) && forall k :: 0 <= k < |revisions| ==> revisions[k].eventId in t.events
    ensures Consistent(t.(revisions := revisions))
  {
  }

  lemma {:induction false} RevisionsOutside(revisions: seq<Revision>, gone: set<Id>, owners: set<Id>)
    requires forall k :: 0 <= k < |revisions| ==> revisions[k].eventId in owners
    ensures forall r :: r in RevisionsIn(revisions, gone, false) ==> r.eventId in owners && r.eventId !in gone
  {
    if revisions != [] {
      var (front, last) := (revisions[..|revisions| - 1], revisions[|revisions| - 1]);
      RevisionsOutside(front, gone, owners);
      forall r | r in RevisionsIn(revisions, gone, false) ensures r.eventId in owners && r.eventId !in gone {
        assert r in RevisionsIn(front, gone, false) || (r == last && last.eventId !in gone);
      }
    }
  }

  lemma PurgedLinked(t: Tables, gone: set<Id>)
    requires Consistent(t)
    ensures Linked(Purged(t, gone))
  {
    var u := Purged(t, gone);
    RevisionsOutside(t.revisions, gone, t.events.Keys);
    forall k | 0 <= k < |u.revisions| ensures u.revisions[k].eventId in u.events {
      assert u.revisions[k] in u.revisions;
    }
    forall id | id in u.events ensures EventLinked(u, u.events[id]) {
      assert u.events[id] == t.events[id] && EventLinked(t, t.events[id]);
    }
    forall r | r in u.rows ensures u.rows[r].ruleId == r && RowLinked(u, u.rows[r]) {
      assert RowLinked(t, t.rows[r]) && t.rows[r].ruleId == r;
    }
    forall r | r in u.rules ensures u.rules[r].id == r && RuleLinked(u, u.rules[r]) {
      assert RuleLinked(t, t.rules[r]);
    }
  }

  lemma PurgedConsistent(t: Tables, gone: set<Id>)
    requires Consistent(t)
    ensures Consistent(Purged(t, gone))
  {
    var u := Purged(t, gone);
    PurgedLinked(t, gone);
    assert forall i :: i in u.events ==> i in t.events && i !in gone && u.events[i] == t.events[i];
    forall r | r in u.rows ensures LastEventMatches(u, u.rows[r]) {
      assert LastEventMatches(t, t.rows[r]);
    }
  }
}
