/** What each operation makes of the tables, column by column, and what an engine sees of them. */
module Effects {
  import opened Wrappers
  import opened Models
  import opened Machine
  import opened Tables
  import opened Operations

  /** The database has an event of this rule, generation and deadline. */
  predicate Taken(t: Tables, rule: Id, generation: nat, deadline: Time)
  {
    exists id :: id in t.events && t.events[id].ruleId == Some(rule)
                 && t.events[id].generation == Some(generation) && t.events[id].deadline == Some(deadline)
  }

  lemma TakenIsKeyed(t: Tables, rule: Id, generation: nat, deadline: Time)
    ensures Taken(t, rule, generation, deadline) <==> HasKey(t, rule, Key(generation, deadline))
  {
    if Taken(t, rule, generation, deadline) {
      var id :| id in t.events && t.events[id].ruleId == Some(rule)
                && t.events[id].generation == Some(generation) && t.events[id].deadline == Some(deadline);
      assert TransitionKey(t.events[id]) == Some((rule, Key(generation, deadline)));
    }
    if HasKey(t, rule, Key(generation, deadline)) {
      var id :| id in t.events && TransitionKey(t.events[id]) == Some((rule, Key(generation, deadline)));
      assert t.events[id].ruleId == Some(rule);
    }
  }

  /** An engine sees its own rule's row, and of the events the generations and deadlines of its rule. */
  lemma EngineSees(t: Tables, rule: Id, key: Key)
    ensures DiskOf(t, rule).row == if rule in t.rows then Some(t.rows[rule]) else None
    ensures key in DiskOf(t, rule).keys <==> Taken(t, rule, key.generation, key.deadline)
  {
    KeysMeaning(t, rule, key);
    TakenIsKeyed(t, rule, key.generation, key.deadline);
    assert key == Key(key.generation, key.deadline);
  }

  /** A confirmation adds one whole event and replaces one row, unless the event is there already or one of
      its references is missing; then nothing changes. */
  lemma Confirmed(t: Tables, c: ConfirmedTransition)
    requires c.runtimeState.ruleId == c.ruleId && c.runtimeState.lastEventId == Some(c.eventId)
    ensures
      var fits :=
        && c.eventId !in t.events && c.journalId in t.journals && c.trackerId in t.trackers && c.placeId in t.places
        && c.ruleId in t.rules;
      Apply(t, Operation.Confirm(c)) ==
      if Taken(t, c.ruleId, c.generation, c.confirmedDeadline) || !fits then t
      else t.(
        events := t.events[c.eventId := LocationEvent(
          c.journalId, Some(c.ruleId), c.trackerId, c.placeId, c.eventType, c.occurredAt, c.confirmedAt,
          c.coordinates, c.accuracy, c.source, EventStatus.Confirmed, None, None,
          Some(c.generation), Some(c.confirmedDeadline), c.confirmedAt, c.confirmedAt)],
        rows := t.rows[c.ruleId := c.runtimeState])
  {
    TakenIsKeyed(t, c.ruleId, c.generation, c.confirmedDeadline);
  }

  /** A save replaces one row if its rule and its last event are there. */
  lemma SavedRow(t: Tables, s: RuntimeState)
    ensures
      Apply(t, Save(s)) ==
      if s.ruleId in t.rules && (s.lastEventId.None? || s.lastEventId.value in t.events) then
        t.(rows := t.rows[s.ruleId := s])
      else t
  {
  }

  lemma DeletedRow(t: Tables, rule: Id, other: Id)
    ensures
      var u := Apply(t, DeleteRow(rule));
      && u == t.(rows := u.rows)
      && (other in u.rows <==> other in t.rows && other != rule)
      && (other in u.rows ==> u.rows[other] == t.rows[other])
  {
  }

  /** An added event is stored as it is, if its identifier is free, what it refers to is there and its rule,
      generation and deadline, if it has them, are not taken. */
  lemma Added(t: Tables, id: Id, e: LocationEvent)
    ensures
      var fits :=
        && id !in t.events && e.journalId in t.journals && e.trackerId in t.trackers && e.placeId in t.places
        && (e.ruleId.Some? ==> e.ruleId.value in t.rules)
        && (e.originalEventId.Some? ==> e.originalEventId.value in t.events)
        && (e.ruleId.Some? && e.generation.Some? && e.deadline.Some? ==>
              !Taken(t, e.ruleId.value, e.generation.value, e.deadline.value));
      Apply(t, AddEvent(id, e)) == if fits then t.(events := t.events[id := e]) else t
  {
    if e.ruleId.Some? && e.generation.Some? && e.deadline.Some? {
      TakenIsKeyed(t, e.ruleId.value, e.generation.value, e.deadline.value);
    }
  }

  /** A status change sets status and time of one event and appends one revision that says what they were
      and are, who changed them, when and why. */
  lemma Changed(t: Tables, m: Mutation)
    ensures
      var fits :=
        && m.eventId in t.events && t.events[m.eventId].status != m.target
        && forall k :: 0 <= k < |t.revisions| ==> t.revisions[k].id != m.revision;
      Apply(t, ChangeStatus(m)) ==
      if !fits then t
      else
        var e := t.events[m.eventId];
        t.(events := t.events[m.eventId := e.(status := m.target, updatedAt := m.changedAt)],
           revisions := t.revisions + [Revision(
             m.revision, m.eventId, AuditState(e.status, e.updatedAt), AuditState(m.target, m.changedAt),
             m.reason, m.changedBy, m.changedAt)])
  {
  }

  /** A purge removes the events before the instant, in the journal if one is named, and keeps every other
      as it is; rows and events that name a removed event name none afterwards; no revision of a removed event
      is left. */
  lemma PurgedTables(t: Tables, before: Time, journal: Option<Id>, id: Id, rule: Id)
    ensures
      var u := Apply(t, Purge(before, journal));
      && u == t.(events := u.events, revisions := u.revisions, rows := u.rows)
      && (id in u.events <==>
            id in t.events && !(t.events[id].occurredAt < before
                                && (journal == None || journal == Some(t.events[id].journalId))))
      && (id in u.events ==>
            var original := t.events[id].originalEventId;
            u.events[id] ==
            t.events[id].(originalEventId :=
              if original.Some? && original.value in t.events && original.value !in u.events then None else original))
      && (rule in u.rows <==> rule in t.rows)
      && (rule in u.rows ==>
            var last := t.rows[rule].lastEventId;
            u.rows[rule] ==
            if last.Some? && last.value in t.events && last.value !in u.events then
              t.rows[rule].(lastEventId := None, lastEventType := None, lastEventAt := None)
            else t.rows[rule])
  {
  }

  /** The revisions that a purge keeps are those of events that stay, in the order in which they were. */
  lemma PurgedRevisions(t: Tables, before: Time, journal: Option<Id>, k: nat)
    requires k < |t.revisions|
    ensures
      var (u, r) := (Apply(t, Purge(before, journal)), t.revisions[k]);
      var kept := !(r.eventId in t.events && r.eventId !in u.events);
      kept ==> exists i :: 0 <= i < |u.revisions| && u.revisions[i] == r
  {
    var gone := Selected(t, before, journal);
    if t.revisions[k].eventId !in gone {
      KeptRevision(t.revisions, gone, k);
    }
  }

  lemma {:induction false} KeptRevision(revisions: seq<Revision>, gone: set<Id>, k: nat)
    requires k < |revisions| && revisions[k].eventId !in gone
    ensures
      var kept := RevisionsIn(revisions, gone, false);
      exists i :: 0 <= i < |kept| && kept[i] == revisions[k]
  {
    var (front, last) := (revisions[..|revisions| - 1], revisions[|revisions| - 1]);
    var rest := RevisionsIn(front, gone, false);
    if k < |front| {
      KeptRevision(front, gone, k);
      var i :| 0 <= i < |rest| && rest[i] == front[k];
      assert RevisionsIn(revisions, gone, false)[i] == revisions[k];
    } else {
      assert RevisionsIn(revisions, gone, false) == rest + [last];
      assert RevisionsIn(revisions, gone, false)[|rest|] == last;
    }
  }

  /** A reset leaves nothing but the version. */
  lemma ResetTables(t: Tables)
    ensures
      var u := Apply(t, Reset);
      && u.trackers == map[] && u.places == map[] && u.journals == map[] && u.rules == map[]
      && u.events == map[] && u.revisions == [] && u.rows == map[] && u.versions == [1]
  {
  }

  /** Resources are stored as they are given; a rule only if its tracker, place and journal are there. */
  lemma Upserted(t: Tables, id: Id, r: Resource, rule: Rule)
    ensures Apply(t, UpsertTracker(id, r)) == t.(trackers := t.trackers[id := r])
    ensures Apply(t, UpsertPlace(id, r)) == t.(places := t.places[id := r])
    ensures Apply(t, UpsertJournal(id, r)) == t.(journals := t.journals[id := r])
    ensures
      Apply(t, UpsertRule(rule)) ==
      if rule.tracker in t.trackers && rule.place in t.places && rule.journal in t.journals then
        t.(rules := t.rules[rule.id := rule])
      else t
  {
  }
}
