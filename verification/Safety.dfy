/** What every reachable world satisfies, whatever the clock does, whenever the
    process dies and whichever callbacks fire. */
module Safety {
  import opened Wrappers
  import opened Models
  import opened RuntimeStates
  import opened Machine
  import opened Worlds

  // ----- the shape of stored states -----

  /** The presence is known, and a pending transition is whole and points the other way. */
  predicate Shaped(s: RuntimeState)
  {
    s.presence != Unknown &&
    (PendingAbsent(s) || (PendingComplete(s) && s.pendingTransition == Some(Opposite(s.presence))))
  }

  predicate Pending(disk: Disk)
  {
    disk.row.Some? && PendingComplete(disk.row.value)
  }

  /** An accepting engine remembers exactly the stored row, and only it holds the lock. */
  predicate InStep(e: Engine, d: Disk)
  {
    && (d.row.Some? ==> Shaped(d.row.value))
    && (!e.accepting ==> e.pc.Idle?)
    && (e.accepting ==> e.state == d.row && e.rule.enabled)
    && (e.pc.Check? || e.pc.Restore? || e.pc.Confirm? ==> Pending(d))
    && (e.pc.Notify? ==> !Pending(d))
  }

  predicate Coherent(w: World)
  {
    && (w.disk.row.Some? ==> Shaped(w.disk.row.value))
    && (w.engine.Some? ==> InStep(w.engine.value, w.disk))
  }

  // ----- one step, seen through its effect -----

  /** Presence, pending transition and generation are as they were. */
  predicate SameCore(a: Option<RuntimeState>, b: Option<RuntimeState>)
  {
    match (a, b)
    case (None, None) => true
    case (Some(s), Some(t)) =>
      && s.presence == t.presence
      && s.pendingTransition == t.pendingTransition
      && s.pendingStartedAt == t.pendingStartedAt
      && s.pendingDeadline == t.pendingDeadline
      && s.pendingGeneration == t.pendingGeneration
    case _ => false
  }

  /** The pending transition is gone; presence is p. */
  predicate Settled(a: Option<RuntimeState>, b: Option<RuntimeState>, p: Presence)
  {
    a.Some? && b.Some? && b.value.presence == p && PendingAbsent(b.value)
    && b.value.pendingGeneration == a.value.pendingGeneration
  }

  /** The flip adopts the pending target at or after its deadline. */
  predicate Due(s: RuntimeState, flip: Flip)
  {
    PendingComplete(s) && s.pendingTransition == Some(flip.target) && s.pendingDeadline.value <= flip.at
  }

  predicate MatchesPending(s: RuntimeState, flip: Flip, e: LocationEvent)
  {
    && e.generation == Some(s.pendingGeneration)
    && e.deadline == s.pendingDeadline
    && s.pendingStartedAt == Some(e.occurredAt)
    && e.confirmedAt == flip.at
    && EventTypeFor(flip.target) == Success(e.eventType)
  }

  /** From the start to the deadline of a transition lie its own direction's seconds. */
  predicate Spans(rule: Rule, target: Presence, started: Time, deadline: Time)
  {
    && (target == Inside ==> deadline == started + rule.enterSeconds * SECOND)
    && (target == Outside ==> deadline == started + rule.exitSeconds * SECOND)
    && target != Unknown
  }

  /** The stored part before and after a step with this effect. */
  predicate Move(a: Disk, effect: Effect, b: Disk)
  {
    && (!effect.Committed? ==> b.keys <= a.keys)
    && match effect
       case Nothing => SameCore(a.row, b.row)
       case Silent => a == b
       case Announced(_) => a == b
       case Duplicate(p) => a == b && Pending(a) && a.row.value.pendingTransition == Some(p)
                            && Key(a.row.value.pendingGeneration, a.row.value.pendingDeadline.value) in a.keys
       case Broken(_) => false
       case Baseline(p) =>
         a.row.None? && b.row.Some? && PendingAbsent(b.row.value) && b.row.value.presence == p && p != Unknown
         && b.row.value.pendingGeneration == 0
       case Agreed(p) => a.row.Some? && p == a.row.value.presence && Settled(a.row, b.row, p)
       case Cancelled(p) => a.row.Some? && Settled(a.row, b.row, a.row.value.presence)
       case Refreshed(p) => SameCore(a.row, b.row) && Pending(a) && a.row.value.pendingTransition == Some(p)
       case Began(p, rule) =>
         && a.row.Some? && PendingAbsent(a.row.value) && p == Opposite(a.row.value.presence) && p != Unknown
         && Pending(b)
         && b.row.value.presence == a.row.value.presence
         && b.row.value.pendingTransition == Some(p)
         && Spans(rule, p, b.row.value.pendingStartedAt.value, b.row.value.pendingDeadline.value)
         && b.row.value.pendingGeneration == a.row.value.pendingGeneration + 1
       case Suppressed(flip) => Pending(a) && Due(a.row.value, flip) && Settled(a.row, b.row, flip.target)
       case Committed(flip, t) =>
         && Pending(a) && Due(a.row.value, flip) && Settled(a.row, b.row, flip.target)
         && MatchesPending(a.row.value, flip, EventOf(t))
         && Key(t.generation, t.confirmedDeadline) !in a.keys
         && b.keys == a.keys + {Key(t.generation, t.confirmedDeadline)}
       case Erased => b.row.None?
  }

  /** The step consults the re-check and acts on it. */
  predicate Decided(effect: Effect)
  {
    effect.Silent? || effect.Cancelled? || effect.Suppressed? || effect.Committed? || effect.Duplicate?
  }

  function EffectOf(w: World, step: Step): Effect
  {
    Act(w, step).2
  }

  predicate Good(d: Disk, o: Outcome)
  {
    InStep(o.engine, o.disk) && Move(d, o.effect, o.disk)
  }

  lemma AcceptGood(e: Engine, d: Disk, o: Observation, now: Time)
    requires InStep(e, d) && e.accepting && e.pc.Idle?
    ensures Good(d, Accept(e, d, o, now))
  {
  }

  lemma DecideGood(e: Engine, d: Disk, now: Time, answer: Option<Presence>, newId: Id)
    requires InStep(e, d) && e.pc.Confirm?
    requires d.row.value.pendingDeadline.value <= now
    ensures Good(d, Decide(e, d, d.row.value, now, answer, newId))
  {
    var s := d.row.value;
    if answer == s.pendingTransition {
      var cooldown := DirectionCooldown(s, answer.value);
      if !(cooldown.Some? && now < cooldown.value) {
        var built := BuildConfirmedTransition(e.rule, e.source, s, now, s.pendingGeneration, newId);
        assert built.Success?;
        var flip := Flip(answer.value, now, e.rule.cooldownSeconds * SECOND);
        CommitGood(e, d, flip, built.value);
      }
    }
  }

  lemma CommitGood(e: Engine, d: Disk, flip: Flip, t: ConfirmedTransition)
    requires InStep(e, d) && e.pc.Confirm? && Due(d.row.value, flip)
    requires MatchesPending(d.row.value, flip, EventOf(t))
    requires ConfirmedState(d.row.value, flip.target, flip.at, Some(t.eventId), e.rule) == Success(t.runtimeState)
    ensures Good(d, Commit(e, d, flip, t))
  {
  }

  lemma ContinueGood(e: Engine, d: Disk, now: Time, answer: Option<Presence>, newId: Id)
    requires InStep(e, d)
    ensures Good(d, Continue(e, d, now, answer, newId))
  {
    if e.pc.Confirm? && now >= d.row.value.pendingDeadline.value {
      DecideGood(e, d, now, answer, newId);
    }
  }

  lemma StepGood(e: Engine, d: Disk, input: Input)
    requires InStep(e, d)
    ensures Good(d, Machine.Step(e, d, input))
  {
    match input
    case Sample(o, now) =>
      if e.pc.Idle? && e.accepting {
        AcceptGood(e, d, o, now);
      }
    case Tick(now, answer, newId) => ContinueGood(e, d, now, answer, newId);
    case _ =>
  }

  /** Every step keeps the world coherent and moves the stored part as its effect says;
      in particular no step ever reports a violated engine invariant. */
  lemma CoherentNext(w: World, step: Step)
    requires Coherent(w)
    ensures Coherent(Next(w, step))
    ensures Move(w.disk, EffectOf(w, step), Next(w, step).disk)
  {
    match step
    case On(input) =>
      if Enabled(w, input) {
        StepGood(w.engine.value, w.disk, input);
      }
    case _ =>
  }

  /** The event an engine has committed and not yet announced. */
  function Unannounced(engine: Option<Engine>): Option<Id>
  {
    if engine.Some? && engine.value.pc.Notify? then Some(engine.value.pc.event) else None
  }

  /** An engine is about to notify exactly when it has just committed. */
  predicate NotifyMove(h: History, a: Option<Id>, effect: Effect, b: Option<Id>)
  {
    match effect
    case Committed(_, t) => t.eventId >= h.nextId && b == Some(t.eventId)
    case Announced(id) => a == Some(id) && b.None?
    case _ => b.Some? ==> a == b
  }

  lemma NotifyNext(w: World, step: Step)
    requires Coherent(w)
    ensures NotifyMove(w.past, Unannounced(w.engine), EffectOf(w, step), Unannounced(Next(w, step).engine))
  {
  }

  // ----- generations and keys -----

  predicate WholeEntry(e: Entry)
  {
    && e.event.generation.Some? && e.event.deadline.Some?
    && EventTypeFor(e.flip.target) == Success(e.event.eventType)
    && e.event.confirmedAt == e.flip.at
  }

  function Generation(e: Entry): nat
  {
    if e.event.generation.Some? then e.event.generation.value else 0
  }

  function KeyOf(e: Entry): Key
  {
    Key(Generation(e), if e.event.deadline.Some? then e.event.deadline.value else 0)
  }

  /** Within a lifetime generations grow along the journal; lifetimes never go back. */
  predicate Before(a: Entry, b: Entry)
  {
    a.lifetime < b.lifetime || (a.lifetime == b.lifetime && Generation(a) < Generation(b))
  }

  predicate Numbered(h: History, disk: Disk)
  {
    && (forall k :: 0 <= k < |h.journal| ==> WholeEntry(h.journal[k]) && h.journal[k].lifetime <= h.lifetime)
    && (forall i, j :: 0 <= i < j < |h.journal| ==> Before(h.journal[i], h.journal[j]))
    && (forall k :: 0 <= k < |h.journal| && h.journal[k].lifetime == h.lifetime ==>
          && disk.row.Some?
          && Generation(h.journal[k]) <= disk.row.value.pendingGeneration
          && (Pending(disk) ==> Generation(h.journal[k]) < disk.row.value.pendingGeneration))
    && (disk.row.None? <==> h.baseline.None?)
    && (disk.row.None? ==> h.flips == [])
  }

  lemma NumberedMove(h: History, a: Disk, effect: Effect, b: Disk)
    requires Numbered(h, a) && Move(a, effect, b)
    ensures Numbered(Record(h, effect), b)
  {
    if effect.Committed? {
      var (journal, entry) := (h.journal, Record(h, effect).journal[|h.journal|]);
      assert WholeEntry(entry) && entry.lifetime == h.lifetime;
      forall k | 0 <= k < |journal| ensures Before(journal[k], entry) {
      }
    }
  }

  predicate Recorded(h: History, key: Key)
  {
    exists k :: 0 <= k < |h.journal| && KeyOf(h.journal[k]) == key
  }

  predicate Keyed(h: History, disk: Disk)
  {
    forall key :: key in disk.keys ==> Recorded(h, key)
  }

  lemma KeyedMove(h: History, a: Disk, effect: Effect, b: Disk)
    requires Keyed(h, a) && Move(a, effect, b)
    ensures Keyed(Record(h, effect), b)
  {
    var h' := Record(h, effect);
    forall key | key in b.keys ensures Recorded(h', key) {
      if key in a.keys {
        var k :| 0 <= k < |h.journal| && KeyOf(h.journal[k]) == key;
        assert h'.journal[k] == h.journal[k];
      } else {
        assert KeyOf(h'.journal[|h.journal|]) == key;
      }
    }
  }

  // ----- evidence -----

  predicate Unanimous(evidence: seq<Presence>, from: nat, to: nat, target: Presence)
  {
    from <= to <= |evidence| && forall k :: from <= k < to ==> evidence[k] == target
  }

  predicate Dwelt(e: Entry, evidence: seq<Presence>)
  {
    && e.event.deadline.Some? && e.event.deadline.value <= e.event.confirmedAt
    && e.under.Some? && Spans(e.under.value, e.flip.target, e.event.occurredAt, e.event.deadline.value)
    && e.from + 2 <= e.to
    && Unanimous(evidence, e.from, e.to, e.flip.target)
  }

  predicate Evidenced(h: History, disk: Disk)
  {
    && (forall k :: 0 <= k < |h.journal| ==> Dwelt(h.journal[k], h.evidence))
    && (Pending(disk) ==>
          var s := disk.row.value;
          && h.began < |h.evidence|
          && Unanimous(h.evidence, h.began, |h.evidence|, s.pendingTransition.value)
          && h.under.Some?
          && Spans(h.under.value, s.pendingTransition.value, s.pendingStartedAt.value, s.pendingDeadline.value))
  }

  lemma EvidencedMove(h: History, a: Disk, effect: Effect, b: Disk)
    requires Evidenced(h, a) && Move(a, effect, b)
    ensures Evidenced(Record(h, effect), b)
  {
  }

  // ----- identifiers and notifications -----

  predicate Journaled(h: History, id: Id)
  {
    exists k :: 0 <= k < |h.journal| && h.journal[k].id == id
  }

  predicate Announcing(h: History, unannounced: Option<Id>)
  {
    && (forall k :: 0 <= k < |h.journal| ==> h.journal[k].id < h.nextId)
    && (forall i, j :: 0 <= i < j < |h.journal| ==> h.journal[i].id < h.journal[j].id)
    && (forall k :: 0 <= k < |h.notes| ==> Journaled(h, h.notes[k]))
    && (forall i, j :: 0 <= i < j < |h.notes| ==> h.notes[i] < h.notes[j])
    && (unannounced.Some? ==>
          && Journaled(h, unannounced.value)
          && forall k :: 0 <= k < |h.notes| ==> h.notes[k] < unannounced.value)
  }

  lemma AnnouncingMove(h: History, a: Option<Id>, effect: Effect, b: Option<Id>)
    requires Announcing(h, a) && NotifyMove(h, a, effect, b)
    ensures Announcing(Record(h, effect), b)
  {
    var h' := Record(h, effect);
    JournaledKept(h, effect);
    if effect.Committed? {
      assert h'.journal[|h.journal|].id == effect.transition.eventId;
      forall k | 0 <= k < |h.notes| ensures h.notes[k] < effect.transition.eventId {
        assert Journaled(h, h.notes[k]);
      }
    }
  }

  lemma JournaledKept(h: History, effect: Effect)
    ensures forall id :: Journaled(h, id) ==> Journaled(Record(h, effect), id)
  {
    forall id | Journaled(h, id) ensures Journaled(Record(h, effect), id) {
      var k :| 0 <= k < |h.journal| && h.journal[k].id == id;
      assert Record(h, effect).journal[k].id == id;
    }
  }

  // ----- every reachable world -----

  predicate Sound(w: World)
  {
    && Coherent(w)
    && Numbered(w.past, w.disk)
    && Keyed(w.past, w.disk)
    && Evidenced(w.past, w.disk)
    && Announcing(w.past, Unannounced(w.engine))
  }

  lemma SoundNext(w: World, step: Step)
    requires Sound(w)
    ensures Sound(Next(w, step))
  {
    var (effect, w') := (EffectOf(w, step), Next(w, step));
    CoherentNext(w, step);
    NumberedMove(w.past, w.disk, effect, w'.disk);
    KeyedMove(w.past, w.disk, effect, w'.disk);
    EvidencedMove(w.past, w.disk, effect, w'.disk);
    NotifyNext(w, step);
    AnnouncingMove(w.past, Unannounced(w.engine), effect, Unannounced(w'.engine));
  }

  lemma {:induction false} SoundRun(w: World, steps: seq<Step>)
    requires Sound(w)
    ensures Sound(Run(w, steps))
    decreases |steps|
  {
    if steps != [] {
      SoundNext(w, steps[0]);
      SoundRun(Next(w, steps[0]), steps[1..]);
    }
  }

  lemma Reachable(steps: seq<Step>)
    ensures Sound(Run(Genesis(), steps))
  {
    SoundRun(Genesis(), steps);
  }

  // ----- the theorems -----

  /** Presence is known, pending transitions are whole and opposite, memory is the stored row,
      and neither an incomplete transition nor an unknown target nor a lost row is ever met. */
  lemma PendingStructure(steps: seq<Step>, step: Step)
    ensures
      var w := Run(Genesis(), steps);
      && (w.disk.row.Some? ==> Shaped(w.disk.row.value))
      && (w.engine.Some? && w.engine.value.accepting ==> w.engine.value.state == w.disk.row)
      && !EffectOf(w, step).Broken?
      && (EffectOf(w, step).Began? ==> !Pending(w.disk))
  {
    Reachable(steps);
    CoherentNext(Run(Genesis(), steps), step);
  }

  /** From every event's start to its deadline lie the seconds that the rule in force at the start asked
      for in its direction, the deadline had passed when it was confirmed, and all evidence from the
      first sample of the transition up to the confirming re-check spoke for the new presence. */
  lemma DwellGuarantee(steps: seq<Step>)
    ensures
      var h := Run(Genesis(), steps).past;
      forall k :: 0 <= k < |h.journal| ==>
        && Dwelt(h.journal[k], h.evidence)
        && EventTypeFor(h.journal[k].flip.target) == Success(h.journal[k].event.eventType)
  {
    Reachable(steps);
    var h := Run(Genesis(), steps).past;
    forall k | 0 <= k < |h.journal| ensures Dwelt(h.journal[k], h.evidence) && WholeEntry(h.journal[k]) {
    }
  }

  /** In one lifetime a generation yields at most one event and later events have higher
      generations; notifications follow the journal without repetition, each after its commit. */
  lemma ExactlyOnce(steps: seq<Step>)
    ensures
      var h := Run(Genesis(), steps).past;
      && (forall i, j :: 0 <= i < j < |h.journal| && h.journal[i].lifetime == h.journal[j].lifetime ==>
            Generation(h.journal[i]) < Generation(h.journal[j]))
      && (forall i, j :: 0 <= i < j < |h.journal| ==> h.journal[i].id != h.journal[j].id)
      && (forall i, j :: 0 <= i < j < |h.notes| ==> h.notes[i] < h.notes[j])
      && (forall n :: 0 <= n < |h.notes| ==> Journaled(h, h.notes[n]))
  {
    Reachable(steps);
    var h := Run(Genesis(), steps).past;
    forall i, j | 0 <= i < j < |h.journal| && h.journal[i].lifetime == h.journal[j].lifetime
      ensures Generation(h.journal[i]) < Generation(h.journal[j])
    {
      assert Before(h.journal[i], h.journal[j]);
    }
  }

  /** A retained event of an earlier lifetime carries the pending key. */
  predicate Collides(w: World)
  {
    && Pending(w.disk)
    && PendingKey(w.disk.row.value) in w.disk.keys
    && exists k :: 0 <= k < |w.past.journal|
                   && w.past.journal[k].lifetime < w.past.lifetime
                   && KeyOf(w.past.journal[k]) == PendingKey(w.disk.row.value)
  }

  function PendingKey(s: RuntimeState): Key
  {
    Key(s.pendingGeneration, if s.pendingDeadline.Some? then s.pendingDeadline.value else 0)
  }

  /** A due confirmation whose re-check agrees and whose direction is not cooling down. */
  predicate Confirms(w: World, step: Step)
  {
    && step.On? && step.input.Tick? && Enabled(w, step.input)
    && w.engine.value.pc.Confirm? && Pending(w.disk)
    && w.disk.row.value.pendingDeadline.value <= step.input.now
    && step.input.answer == w.disk.row.value.pendingTransition
    && var cooldown := DirectionCooldown(w.disk.row.value, step.input.answer.value);
       !(cooldown.Some? && step.input.now < cooldown.value)
  }

  /** Within a lifetime the pending generation is new, so a stored key that matches it is older. */
  lemma PendingKeyIsOld(w: World)
    ensures Sound(w) && Pending(w.disk) && PendingKey(w.disk.row.value) in w.disk.keys ==> Collides(w)
  {
  }

  /** The append is refused as a duplicate exactly when an event kept from an earlier lifetime of
      the row has the same generation and deadline; otherwise it commits. */
  lemma DuplicateExactly(steps: seq<Step>, step: Step)
    requires Confirms(Run(Genesis(), steps), step)
    ensures
      var w := Run(Genesis(), steps);
      && (EffectOf(w, step).Duplicate? <==> Collides(w))
      && (EffectOf(w, step).Committed? <==> !Collides(w))
  {
    Reachable(steps);
    var w := Run(Genesis(), steps);
    PendingKeyIsOld(w);
    var (e, s, now, id) := (w.engine.value, w.disk.row.value, step.input.now, step.input.newId);
    ContinueGood(e, w.disk, now, step.input.answer, id);
    assert BuildConfirmedTransition(e.rule, e.source, s, now, s.pendingGeneration, id).Success?;
  }

  lemma NoDuplicateAtFirst(w: World, step: Step)
    requires Sound(w) && w.past.lifetime == 0
    ensures !EffectOf(w, step).Duplicate?
  {
  }

  /** In the first lifetime no confirmation is ever a duplicate. */
  lemma NoDuplicateInFirstLifetime(steps: seq<Step>, step: Step)
    requires Run(Genesis(), steps).past.lifetime == 0
    ensures !EffectOf(Run(Genesis(), steps), step).Duplicate?
  {
    Reachable(steps);
    NoDuplicateAtFirst(Run(Genesis(), steps), step);
  }
}
