/** The database as the program uses it: one connection, explicit transactions, and
    statements that the schema's constraints may refuse. Each operation is written
    statement by statement and proved against its value in `Tables`. */
module Database {
  import opened Wrappers
  import opened Models
  import opened RuntimeStates
  import opened Machine
  import opened Tables
  import opened Operations
  import Maintenance

  datatype ReferenceKind = JournalReference | TrackerReference | PlaceReference

  datatype StorageError =
    | IntegrityError
    | MissingReference(kind: ReferenceKind, id: Id)
    | EventNotFound(id: Id)
    | PurgeUnconfirmed
    | ResetUnconfirmed
    | SchemaError(detail: string)

  datatype TransitionResult = TransitionResult(eventId: Id, created: bool)

  datatype MutationResult = MutationResult(eventId: Id, revision: Option<Id>, status: EventStatus, changed: bool)

  datatype PurgeRequest = PurgeRequest(before: Time, journal: Option<Id>, dryRun: bool, confirm: bool)

  datatype PurgeResult = PurgeResult(
    matchedEvents: nat, matchedRevisions: nat, deletedEvents: nat, deletedRevisions: nat, dryRun: bool)

  datatype ResetResult = ResetResult(
    trackers: nat, places: nat, journals: nat, rules: nat, events: nat, revisions: nat, rows: nat, version: nat)

  const RESET_CONFIRMATION_PHRASE := "DELETE ALL GEOFENCE JOURNAL DATA"

  class Connection {
    var committed: Tables // what survives a crash
    var working: Tables   // what an open transaction sees
    var open: bool

    constructor ()
      ensures !open && committed == Emptied()
    {
      committed := Emptied();
      working := Emptied();
      open := false;
    }

    // ----- transactions -----

    method Begin()
      requires !open
      modifies this
      ensures open && working == committed == old(committed)
    {
      working := committed;
      open := true;
    }

    method Commit()
      requires open
      modifies this
      ensures !open && committed == old(working)
    {
      committed := working;
      open := false;
    }

    method Rollback()
      requires open
      modifies this
      ensures !open && committed == old(committed)
    {
      working := committed;
      open := false;
    }

    // ----- statements -----

    method InsertEvent(id: Id, e: LocationEvent) returns (ok: bool)
      requires open
      modifies this`working
      ensures ok == Insertable(old(working), id, e)
      ensures working == if ok then Inserted(old(working), id, e) else old(working)
    {
      ok := Insertable(working, id, e);
      if ok {
        working := Inserted(working, id, e);
      }
    }

    method WriteRow(s: RuntimeState) returns (ok: bool)
      requires open
      modifies this`working
      ensures ok == RowLinked(old(working), s)
      ensures working == if ok then Saved(old(working), s) else old(working)
    {
      ok := RowLinked(working, s);
      if ok {
        working := Saved(working, s);
      }
    }

    /** UPDATE ... WHERE id=? AND status<>?; the result is the number of rows changed. */
    method UpdateStatus(m: Mutation) returns (changes: nat)
      requires open
      modifies this`working
      ensures changes ==
              if m.eventId in old(working).events && old(working).events[m.eventId].status != m.target then 1 else 0
      ensures working == if changes == 1 then StatusUpdated(old(working), m) else old(working)
    {
      changes := 0;
      if m.eventId in working.events && working.events[m.eventId].status != m.target {
        working := StatusUpdated(working, m);
        changes := 1;
      }
    }

    method InsertRevision(r: Revision) returns (ok: bool)
      requires open
      modifies this`working
      ensures ok == (r.eventId in old(working).events && !RevisionExists(old(working), r.id))
      ensures working == if ok then old(working).(revisions := old(working).revisions + [r]) else old(working)
    {
      ok := r.eventId in working.events && !RevisionExists(working, r.id);
      if ok {
        working := working.(revisions := working.revisions + [r]);
      }
    }

    method DeleteRevisions(before: Time, journal: Option<Id>)
      requires open
      modifies this`working
      ensures working == old(working).(
              revisions := RevisionsIn(old(working).revisions, Selected(old(working), before, journal), false))
    {
      working := working.(revisions := RevisionsIn(working.revisions, Selected(working, before, journal), false));
    }

    method ClearRuntimeEvents(before: Time, journal: Option<Id>)
      requires open
      modifies this`working
      ensures working == old(working).(
              rows := RowsCleared(old(working).rows, Selected(old(working), before, journal)))
    {
      working := working.(rows := RowsCleared(working.rows, Selected(working, before, journal)));
    }

    method ClearOriginals(before: Time, journal: Option<Id>)
      requires open
      modifies this`working
      ensures working == old(working).(
              events := OriginalsCleared(old(working).events, Selected(old(working), before, journal)))
    {
      working := working.(events := OriginalsCleared(working.events, Selected(working, before, journal)));
    }

    /** Deleting events is refused while anything refers to one of them. */
    method DeleteEvents(gone: set<Id>) returns (ok: bool)
      requires open
      modifies this`working
      ensures ok == Unreferenced(old(working), gone)
      ensures !ok <==>
              || (exists k :: 0 <= k < |old(working).revisions| && old(working).revisions[k].eventId in gone)
              || (exists r :: r in old(working).rows && old(working).rows[r].lastEventId.Some?
                              && old(working).rows[r].lastEventId.value in gone)
              || (exists id :: id in old(working).events && old(working).events[id].originalEventId.Some?
                               && old(working).events[id].originalEventId.value in gone)
      ensures working == if ok then old(working).(events := old(working).events - gone) else old(working)
    {
      ok := Unreferenced(working, gone);
      if ok {
        working := working.(events := working.events - gone);
      }
    }

    // ----- runtime rows -----

    method LoadRuntimeState(rule: Id) returns (row: Option<RuntimeState>)
      requires !open
      ensures row == DiskOf(committed, rule).row
    {
      row := if rule in committed.rows then Some(committed.rows[rule]) else None;
    }

    method SaveRuntimeState(s: RuntimeState) returns (r: Result<(), StorageError>)
      requires !open
      modifies this
      ensures !open && committed == Apply(old(committed), Save(s))
      ensures r == if RowLinked(old(committed), s) then Success(()) else Failure(IntegrityError)
    {
      Begin();
      var ok := WriteRow(s);
      if !ok {
        Rollback();
        return Failure(IntegrityError);
      }
      Commit();
      return Success(());
    }

    method DeleteRuntimeState(rule: Id)
      requires !open
      modifies this
      ensures !open && committed == Apply(old(committed), DeleteRow(rule))
    {
      Begin();
      working := RowDeleted(working, rule);
      Commit();
    }

    // ----- transitions -----

    /** Append the event and replace the row in one transaction, or report the event that is already there. */
    method ConfirmTransition(c: ConfirmedTransition) returns (r: Result<TransitionResult, StorageError>)
      requires !open
      modifies this
      ensures !open && committed == Apply(old(committed), Operation.Confirm(c))
      ensures
        if Replayed(old(committed), c) then
          && r.Success? && !r.value.created
          && r.value.eventId in committed.events
          && TransitionKey(committed.events[r.value.eventId]) ==
              Some((c.ruleId, Key(c.generation, c.confirmedDeadline)))
        else if Committable(old(committed), c) then r == Success(TransitionResult(c.eventId, true))
        else r == Failure(IntegrityError)
    {
      var key := Key(c.generation, c.confirmedDeadline);
      if HasKey(committed, c.ruleId, key) {
        var id :| id in committed.events && TransitionKey(committed.events[id]) == Some((c.ruleId, key));
        return Success(TransitionResult(id, false));
      }
      Begin();
      var ok := InsertEvent(c.eventId, EventOf(c));
      if ok {
        ok := WriteRow(c.runtimeState);
      }
      if !ok {
        Rollback();
        return Failure(IntegrityError);
      }
      Commit();
      return Success(TransitionResult(c.eventId, true));
    }

    // ----- events -----

    method AddManualEvent(
      id: Id, journal: Id, tracker: Id, place: Id, occurredAt: Time, confirmedAt: Time,
      coordinates: Option<Coordinates>, accuracy: Option<real>, note: Option<string>)
      returns (r: Result<Id, StorageError>)
      requires !open
      modifies this
      ensures !open
      ensures
        var e := ManualEvent(journal, tracker, place, occurredAt, confirmedAt, coordinates, accuracy, note);
        committed == Apply(old(committed), Operation.AddEvent(id, e))
      ensures
        committed ==
        if r.Failure? then old(committed)
        else old(committed).(events := old(committed).events[id := LocationEvent(
          journal, None, tracker, place, EventType.Manual, occurredAt, confirmedAt, coordinates, accuracy,
          Source.ManualEntry, EventStatus.Confirmed, note, None, None, None, confirmedAt, confirmedAt)])
      ensures r ==
              if journal !in old(committed).journals then Failure(MissingReference(JournalReference, journal))
              else if tracker !in old(committed).trackers then Failure(MissingReference(TrackerReference, tracker))
              else if place !in old(committed).places then Failure(MissingReference(PlaceReference, place))
              else if id in old(committed).events then Failure(IntegrityError)
              else Success(id)
    {
      Begin();
      var missing :=
        if journal !in working.journals then Some(MissingReference(JournalReference, journal))
        else if tracker !in working.trackers then Some(MissingReference(TrackerReference, tracker))
        else if place !in working.places then Some(MissingReference(PlaceReference, place))
        else None;
      if missing.Some? {
        Rollback();
        return Failure(missing.value);
      }
      var ok := InsertEvent(id,
          ManualEvent(journal, tracker, place, occurredAt, confirmedAt, coordinates, accuracy, note));
      if !ok {
        Rollback();
        return Failure(IntegrityError);
      }
      Commit();
      return Success(id);
    }

    /** Exclude or restore an event; an event that already has the status is left alone. */
    method ChangeStatus(m: Mutation) returns (r: Result<MutationResult, StorageError>)
      requires !open
      modifies this
      ensures !open && committed == Apply(old(committed), Operation.ChangeStatus(m))
      ensures
        var t := old(committed);
        committed ==
        if r.Failure? || !r.value.changed || m.eventId !in t.events then t
        else t.(
          events := t.events[m.eventId := t.events[m.eventId].(status := m.target, updatedAt := m.changedAt)],
          revisions := t.revisions + [Revision(
            m.revision, m.eventId, AuditState(t.events[m.eventId].status, t.events[m.eventId].updatedAt),
            AuditState(m.target, m.changedAt), m.reason, m.changedBy, m.changedAt)])
      ensures r ==
              if m.eventId !in old(committed).events then Failure(EventNotFound(m.eventId))
              else if old(committed).events[m.eventId].status == m.target then
                Success(MutationResult(m.eventId, None, m.target, false))
              else if RevisionExists(old(committed), m.revision) then Failure(IntegrityError)
              else Success(MutationResult(m.eventId, Some(m.revision), m.target, true))
    {
      Begin();
      if m.eventId !in working.events {
        Rollback();
        return Failure(EventNotFound(m.eventId));
      }
      var was := working.events[m.eventId];
      var changes := UpdateStatus(m);
      if changes == 0 {
        Rollback();
        return Success(MutationResult(m.eventId, None, m.target, false));
      }
      var ok := InsertRevision(RevisionOf(was, m));
      if !ok {
        Rollback();
        return Failure(IntegrityError);
      }
      Commit();
      return Success(MutationResult(m.eventId, Some(m.revision), m.target, true));
    }

    // ----- maintenance -----

    /** Count, or delete, the events strictly before an instant. No statement of a confirmed purge is
        ever refused: what refers to a selected event is removed or cleared before it goes. */
    method PurgeEvents(q: PurgeRequest) returns (r: Result<PurgeResult, StorageError>)
      requires !open
      modifies this
      ensures !open
      ensures committed ==
              if !q.dryRun && q.confirm then Apply(old(committed), Purge(q.before, q.journal)) else old(committed)
      ensures r == PurgeResultOf(old(committed), q)
      ensures ReportsPurge(r, q, |old(committed).events|, |old(committed).revisions|, Left(old(committed), q))
    {
      PurgeReported(committed, q);
      if q.dryRun {
        var matched := Selected(committed, q.before, q.journal);
        return Success(PurgeResult(|matched|, |RevisionsIn(committed.revisions, matched, true)|, 0, 0, true));
      }
      if !q.confirm {
        return Failure(PurgeUnconfirmed);
      }
      Begin();
      var gone := Selected(working, q.before, q.journal);
      var (events, revisions) := (|gone|, |RevisionsIn(working.revisions, gone, true)|);
      PurgeStatements(q.before, q.journal);
      Commit();
      return Success(PurgeResult(events, revisions, events, revisions, false));
    }

    /** No statement is refused, so the rollback for that case is never reached. */
    method PurgeStatements(before: Time, journal: Option<Id>)
      requires open
      modifies this`working
      ensures working == Purged(old(working), Selected(old(working), before, journal))
    {
      ghost var t := working;
      ghost var gone := Selected(t, before, journal);
      DeleteRevisions(before, journal);
      SelectedStable(t, working, before, journal);
      ClearRuntimeEvents(before, journal);
      SelectedStable(t, working, before, journal);
      ClearOriginals(before, journal);
      SelectedStable(t, working, before, journal);
      ClearedUnreferenced(t, gone);
      var ok := DeleteEvents(Selected(working, before, journal));
      assert ok;
    }

    /** Empty every table, children before parents, and write the version row again. It relies on
        `originalEventId` never being written: an event that names another one may block its deletion. */
    method ResetDatabase(confirmation: string) returns (r: Result<ResetResult, StorageError>)
      requires !open
      modifies this
      ensures !open
      ensures
        var t := old(committed);
        if confirmation != "DELETE ALL GEOFENCE JOURNAL DATA" then r == Failure(ResetUnconfirmed) && committed == t
        else if t.versions != [SCHEMA_VERSION] then r.Failure? && r.error.SchemaError? && committed == t
        else if Consistent(t) then
          && committed == Apply(t, Reset)
          && r == Success(ResetResult(|t.trackers|, |t.places|, |t.journals|, |t.rules|, |t.events|, |t.revisions|,
                                      |t.rows|, SCHEMA_VERSION))
        else committed == t || committed == Apply(t, Reset)
    {
      if confirmation != RESET_CONFIRMATION_PHRASE {
        return Failure(ResetUnconfirmed);
      }
      if |committed.versions| != 1 {
        return Failure(SchemaError("schema_version must contain one integer row"));
      }
      if committed.versions[0] != SCHEMA_VERSION {
        return Failure(SchemaError("reset requires schema v1"));
      }
      Begin();
      var t := working;
      var counts := ResetResult(|t.trackers|, |t.places|, |t.journals|, |t.rules|, |t.events|, |t.revisions|,
                                |t.rows|, SCHEMA_VERSION);
      var ok := ResetStatements();
      if !ok {
        Rollback();
        return Failure(IntegrityError);
      }
      Commit();
      return Success(counts);
    }

    method ResetStatements() returns (ok: bool)
      requires open
      modifies this`working
      ensures ok ==> working == Emptied()
      ensures (forall id :: id in old(working).events ==> old(working).events[id].originalEventId.None?) ==> ok
    {
      working := working.(revisions := []);
      working := working.(rows := map[]);
      ok := DeleteEvents(working.events.Keys);
      if ok {
        assert working.events == map[];
        ok := DeleteResources();
      }
      if ok {
        working := working.(versions := []);
        working := working.(versions := [SCHEMA_VERSION]);
      }
    }

    /** DELETE FROM recording_rules, journals, places and trackers, in this order; each is refused
        while a remaining row refers to the table. */
    method DeleteResources() returns (ok: bool)
      requires open
      modifies this`working
      ensures ok ==> working == old(working).(rules := map[], journals := map[], places := map[], trackers := map[])
      ensures old(working).events == map[] && old(working).rows == map[] ==> ok
    {
      ok := working.rows == map[] && forall id :: id in working.events ==> working.events[id].ruleId.None?;
      if !ok {
        return;
      }
      working := working.(rules := map[]);
      ok := working.rules == map[] && working.events == map[];
      if !ok {
        return;
      }
      working := working.(journals := map[]);
      working := working.(places := map[]);
      working := working.(trackers := map[]);
    }
  }

  /** A dry run and the confirmed purge after it report the same counts. */
  function PurgeResultOf(t: Tables, q: PurgeRequest): Result<PurgeResult, StorageError>
  {
    var gone := Selected(t, q.before, q.journal);
    var (events, revisions) := (|gone|, |RevisionsIn(t.revisions, gone, true)|);
    if q.dryRun then Success(PurgeResult(events, revisions, 0, 0, true))
    else if !q.confirm then Failure(PurgeUnconfirmed)
    else Success(PurgeResult(events, revisions, events, revisions, false))
  }

  /** What a confirmed purge would leave. */
  function Left(t: Tables, q: PurgeRequest): Tables
  {
    Apply(t, Purge(q.before, q.journal))
  }

  /** The report counts the events and the revisions that are there before a confirmed purge and not after
      it; they are reported as deleted only if they have been. */
  predicate ReportsPurge(
    r: Result<PurgeResult, StorageError>, q: PurgeRequest, events: nat, revisions: nat, left: Tables)
  {
    if !q.dryRun && !q.confirm then r == Failure(PurgeUnconfirmed)
    else
      && r.Success? && r.value.dryRun == q.dryRun
      && r.value.matchedEvents == events - |left.events|
      && r.value.matchedRevisions == revisions - |left.revisions|
      && r.value.deletedEvents == (if q.dryRun then 0 else events - |left.events|)
      && r.value.deletedRevisions == (if q.dryRun then 0 else revisions - |left.revisions|)
  }

  lemma PurgeReported(t: Tables, q: PurgeRequest)
    ensures ReportsPurge(PurgeResultOf(t, q), q, |t.events|, |t.revisions|, Left(t, q))
  {
    Maintenance.PurgeCounts(t, q.before, q.journal);
  }

  /** No revision, runtime row or other event refers to one of these events. */
  predicate Unreferenced(t: Tables, gone: set<Id>)
  {
    && (forall k :: 0 <= k < |t.revisions| ==> t.revisions[k].eventId !in gone)
    && (forall r :: r in t.rows && t.rows[r].lastEventId.Some? ==> t.rows[r].lastEventId.value !in gone)
    && (forall id :: id in t.events && t.events[id].originalEventId.Some? ==>
          t.events[id].originalEventId.value !in gone)
  }

  /** The statements before the last do not change what a purge selects. */
  lemma SelectedStable(t: Tables, u: Tables, before: Time, journal: Option<Id>)
    requires u.events.Keys == t.events.Keys
    requires forall id :: id in t.events ==>
               u.events[id].occurredAt == t.events[id].occurredAt && u.events[id].journalId == t.events[id].journalId
    ensures Selected(u, before, journal) == Selected(t, before, journal)
  {
  }

  lemma ClearedUnreferenced(t: Tables, gone: set<Id>)
    ensures Unreferenced(
              t.(revisions := RevisionsIn(t.revisions, gone, false),
                 rows := RowsCleared(t.rows, gone),
                 events := OriginalsCleared(t.events, gone)), gone)
  {
    var kept := RevisionsIn(t.revisions, gone, false);
    var owners := set k | 0 <= k < |t.revisions| :: t.revisions[k].eventId;
    assert forall k :: 0 <= k < |t.revisions| ==> t.revisions[k].eventId in owners;
    RevisionsOutside(t.revisions, gone, owners);
    forall k | 0 <= k < |kept| ensures kept[k].eventId !in gone {
      assert kept[k] in kept;
    }
  }
}
