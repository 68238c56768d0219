/** The audit trail: for every retained event, its revisions lead from the state in
    which it was recorded to the state it is in now, one change of status at a time. */
module Audit {
  import opened Models
  import opened Tables

  /** The revisions of one event, in the order they were written. */
  function Trail(revisions: seq<Revision>, id: Id): seq<Revision>
  {
    RevisionsIn(revisions, {id}, true)
  }

  predicate Chain(trail: seq<Revision>, e: LocationEvent)
  {
    && (if trail == [] then AuditState(e.status, e.updatedAt) == AuditState(Confirmed, e.createdAt)
        else
          && trail[0].oldData == AuditState(Confirmed, e.createdAt)
          && trail[|trail| - 1].newData == AuditState(e.status, e.updatedAt))
    && (forall k :: 0 < k < |trail| ==> trail[k].oldData == trail[k - 1].newData)
    && (forall k :: 0 <= k < |trail| ==> trail[k].oldData.status != trail[k].newData.status)
  }

  predicate Audited(t: Tables)
  {
    forall id :: id in t.events ==> Chain(Trail(t.revisions, id), t.events[id])
  }

  // ----- filtering -----

  lemma TrailAppend(revisions: seq<Revision>, r: Revision, id: Id)
    ensures Trail(revisions + [r], id) == if r.eventId == id then Trail(revisions, id) + [r] else Trail(revisions, id)
  {
  }

  lemma {:induction false} TrailEmpty(revisions: seq<Revision>, id: Id)
    requires forall k :: 0 <= k < |revisions| ==> revisions[k].eventId != id
    ensures Trail(revisions, id) == []
  {
    if revisions != [] {
      TrailEmpty(revisions[..|revisions| - 1], id);
    }
  }

  /** Removing the revisions of other events leaves a trail as it was. */
  lemma {:induction false} TrailKept(revisions: seq<Revision>, gone: set<Id>, id: Id)
    requires id !in gone
    ensures Trail(RevisionsIn(revisions, gone, false), id) == Trail(revisions, id)
  {
    if revisions != [] {
      var (front, r) := (revisions[..|revisions| - 1], revisions[|revisions| - 1]);
      TrailKept(front, gone, id);
      TrailAppend(RevisionsIn(front, gone, false), r, id);
    }
  }

  /** And removing those of the event itself leaves nothing of it. */
  lemma {:induction false} TrailGone(revisions: seq<Revision>, gone: set<Id>, id: Id)
    requires id in gone
    ensures Trail(RevisionsIn(revisions, gone, false), id) == []
  {
    if revisions != [] {
      var (front, r) := (revisions[..|revisions| - 1], revisions[|revisions| - 1]);
      TrailGone(front, gone, id);
      TrailAppend(RevisionsIn(front, gone, false), r, id);
    }
  }

  // ----- operations keep the trails -----

  lemma InsertedAudited(t: Tables, id: Id, e: LocationEvent)
    requires Linked(t) && Audited(t) && id !in t.events
    requires e.status == Confirmed && e.updatedAt == e.createdAt
    ensures Audited(Inserted(t, id, e))
  {
    TrailEmpty(t.revisions, id);
  }

  lemma StatusAudited(t: Tables, m: Mutation)
    requires Audited(t) && Mutable(t, m)
    ensures Audited(StatusChanged(t, m))
  {
  }

  lemma PurgedAudited(t: Tables, gone: set<Id>)
    requires Consistent(t) && Audited(t)
    ensures Audited(Purged(t, gone))
  {
    var u := Purged(t, gone);
    forall id | id in u.events ensures Chain(Trail(u.revisions, id), u.events[id]) {
      TrailKept(t.revisions, gone, id);
      assert Chain(Trail(t.revisions, id), t.events[id]);
      assert u.events[id] == t.events[id];
    }
  }

  // ----- what a chain says -----

  /** After k changes the status is confirmed exactly when k is even. */
  lemma {:induction false} ChainStatus(trail: seq<Revision>, e: LocationEvent, k: nat)
    requires Chain(trail, e) && k < |trail|
    ensures trail[k].newData.status == (if (k + 1) % 2 == 0 then Confirmed else Excluded)
    decreases k
  {
    if k > 0 {
      ChainStatus(trail, e, k - 1);
    }
  }

  /** The number of revisions of a retained event determines its status. */
  lemma ParityIsStatus(t: Tables, id: Id)
    requires Audited(t) && id in t.events
    ensures t.events[id].status == (if |Trail(t.revisions, id)| % 2 == 0 then Confirmed else Excluded)
  {
    var trail := Trail(t.revisions, id);
    assert Chain(trail, t.events[id]);
    if trail != [] {
      ChainStatus(trail, t.events[id], |trail| - 1);
    }
  }
}
