/** What a purge deletes and what it leaves. */
module Maintenance {
  import opened Wrappers
  import opened Models
  import opened Tables
  import opened Audit
  import opened Operations

  /** An event is selected when it occurred strictly before the instant, in the named journal if any. */
  predicate Old(e: LocationEvent, before: Time, journal: Option<Id>)
  {
    e.occurredAt < before && (journal.None? || e.journalId == journal.value)
  }

  /** Exactly the old events go; every other event, with its whole audit trail, is as it was. */
  lemma PurgePartition(t: Tables, before: Time, journal: Option<Id>, id: Id)
    requires Consistent(t)
    ensures
      var u := Apply(t, Purge(before, journal));
      && (id in u.events <==> id in t.events && !Old(t.events[id], before, journal))
      && (id in u.events ==> u.events[id] == t.events[id] && Trail(u.revisions, id) == Trail(t.revisions, id))
      && (id in t.events && id !in u.events ==> Trail(u.revisions, id) == [])
  {
    var gone := Selected(t, before, journal);
    if id in gone {
      TrailGone(t.revisions, gone, id);
    } else {
      TrailKept(t.revisions, gone, id);
    }
  }

  /** Runtime rows and resources stay, except that a row forgets a last event that is gone. */
  lemma PurgeKeepsRows(t: Tables, before: Time, journal: Option<Id>)
    requires Consistent(t)
    ensures
      var u := Apply(t, Purge(before, journal));
      && u.rows.Keys == t.rows.Keys
      && (forall r :: r in t.rows ==>
            u.rows[r] == if t.rows[r].lastEventId.Some? && t.rows[r].lastEventId.value !in u.events
                         then WithoutLastEvent(t.rows[r]) else t.rows[r])
      && u == t.(events := u.events, revisions := u.revisions, rows := u.rows)
  {
  }

  lemma {:induction false} RevisionsSplit(revisions: seq<Revision>, ids: set<Id>)
    ensures |RevisionsIn(revisions, ids, true)| + |RevisionsIn(revisions, ids, false)| == |revisions|
  {
    if revisions != [] {
      RevisionsSplit(revisions[..|revisions| - 1], ids);
    }
  }

  lemma RemovalCount<K, V>(m: map<K, V>, gone: set<K>)
    requires gone <= m.Keys
    ensures |m - gone| == |m| - |gone|
  {
  }

  /** The counts that a purge, or a dry run before it, reports are the numbers of rows that go. */
  lemma PurgeCounts(t: Tables, before: Time, journal: Option<Id>)
    ensures
      var (u, gone) := (Apply(t, Purge(before, journal)), Selected(t, before, journal));
      && |gone| == |t.events| - |u.events|
      && |RevisionsIn(t.revisions, gone, true)| == |t.revisions| - |u.revisions|
  {
    var gone := Selected(t, before, journal);
    RevisionsSplit(t.revisions, gone);
    var cleared := OriginalsCleared(t.events, gone);
    RemovalCount(cleared, gone);
    assert cleared.Keys == t.events.Keys;
    assert |cleared| == |cleared.Keys| && |t.events| == |t.events.Keys|;
  }

  lemma {:induction false} NothingToRemove(revisions: seq<Revision>)
    ensures RevisionsIn(revisions, {}, false) == revisions
  {
    if revisions != [] {
      NothingToRemove(revisions[..|revisions| - 1]);
    }
  }

  lemma PurgingNothing(t: Tables)
    ensures Purged(t, {}) == t
  {
    NothingToRemove(t.revisions);
    assert RowsCleared(t.rows, {}) == t.rows;
    assert OriginalsCleared(t.events, {}) == t.events;
    assert t.events - {} == t.events;
  }

  lemma NothingOldStays(t: Tables, before: Time, journal: Option<Id>)
    requires Consistent(t)
    ensures Selected(Apply(t, Purge(before, journal)), before, journal) == {}
  {
    var u := Apply(t, Purge(before, journal));
    forall id | id in u.events ensures id !in Selected(u, before, journal) {
      PurgePartition(t, before, journal, id);
    }
  }

  /** A second purge finds nothing. */
  lemma SecondPurgeIsIdle(t: Tables, before: Time, journal: Option<Id>)
    requires Consistent(t)
    ensures
      var u := Apply(t, Purge(before, journal));
      Selected(u, before, journal) == {} && Apply(u, Purge(before, journal)) == u
  {
    var u := Apply(t, Purge(before, journal));
    NothingOldStays(t, before, journal);
    PurgingNothing(u);
  }
}
