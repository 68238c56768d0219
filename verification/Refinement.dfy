/** While the clock does not run backward, the journal of a row lifetime is a
    function of its confirmed flips: presence folds over them, and the events are
    the ones a greedy per-direction cooldown filter keeps. Crashes, recoveries and
    changed rules make no difference. */
module Refinement {
  import opened Wrappers
  import opened Models
  import opened RuntimeStates
  import opened Machine
  import opened Worlds
  import opened Safety

  // ----- the reference: a greedy cooldown filter -----

  /** When the cooldown opened by the latest flip in this direction ends. */
  function Until(kept: seq<Flip>, target: Presence): Option<Time>
  {
    if kept == [] then None
    else if Last(kept).target == target then Some(Last(kept).at + Last(kept).window)
    else Until(kept[..|kept| - 1], target)
  }

  function Last(flips: seq<Flip>): Flip
    requires flips != []
  {
    flips[|flips| - 1]
  }

  predicate Cooling(kept: seq<Flip>, flip: Flip)
  {
    Until(kept, flip.target).Some? && flip.at < Until(kept, flip.target).value
  }

  /** Keep a flip unless it falls into the cooldown of the last kept flip in its direction. */
  function Greedy(flips: seq<Flip>): seq<Flip>
  {
    if flips == [] then []
    else
      var kept := Greedy(flips[..|flips| - 1]);
      if Cooling(kept, Last(flips)) then kept else kept + [Last(flips)]
  }

  /** The presence after all flips. */
  function Folded(baseline: Presence, flips: seq<Flip>): Presence
  {
    if flips == [] then baseline else Last(flips).target
  }

  /** Each flip leaves the presence that the flips before it led to, and none is earlier than the last. */
  predicate Chained(baseline: Presence, flips: seq<Flip>)
  {
    && (forall k :: 0 <= k < |flips| ==> flips[k].target == Opposite(Folded(baseline, flips[..k])))
    && (forall i, j :: 0 <= i < j < |flips| ==> flips[i].at <= flips[j].at)
    && (forall k :: 0 <= k < |flips| ==> flips[k].window >= 0)
  }

  /** The flips of the events committed in one lifetime, in journal order. */
  function Kept(journal: seq<Entry>, lifetime: nat): seq<Flip>
  {
    if journal == [] then []
    else
      var rest := Kept(journal[..|journal| - 1], lifetime);
      var e := journal[|journal| - 1];
      if e.lifetime == lifetime then rest + [e.flip] else rest
  }

  lemma {:induction false} KeptNothingYet(journal: seq<Entry>, lifetime: nat)
    requires forall k :: 0 <= k < |journal| ==> journal[k].lifetime < lifetime
    ensures Kept(journal, lifetime) == []
  {
    if journal != [] {
      KeptNothingYet(journal[..|journal| - 1], lifetime);
    }
  }

  // ----- cooldown columns follow the filter -----

  /** A stored cooldown is the reference one, or was cleared because it had ended. */
  predicate Tracks(stored: Option<Time>, reference: Option<Time>, clock: Time)
  {
    stored == reference || (stored.None? && reference.Some? && reference.value <= clock)
  }

  /** What a step does to one cooldown column at a clock reading. */
  predicate CooldownMove(a: Option<Time>, effect: Effect, target: Presence, b: Option<Time>, now: Time)
  {
    if effect.Committed? && effect.flip.target == target then
      b == Some(effect.flip.at + effect.flip.window)
    else
      b == a || (b.None? && a.Some? && a.value <= now)
  }

  predicate CooldownsMove(a: Disk, effect: Effect, b: Disk, clock: Time)
  {
    && (a.row.Some? && b.row.Some? ==>
          && CooldownMove(a.row.value.enterCooldownUntil, effect, Inside, b.row.value.enterCooldownUntil, clock)
          && CooldownMove(a.row.value.exitCooldownUntil, effect, Outside, b.row.value.exitCooldownUntil, clock))
    && (a.row.None? && b.row.Some? ==> b.row.value.enterCooldownUntil.None? && b.row.value.exitCooldownUntil.None?)
    && (effect.Suppressed? ==>
          a.row.Some? && CoolingDown(a.row.value, effect.flip) && effect.flip.at == clock && effect.flip.window >= 0)
    && (effect.Committed? ==>
          a.row.Some? && !CoolingDown(a.row.value, effect.flip) && effect.flip.at == clock && effect.flip.window >= 0)
  }

  predicate CoolingDown(s: RuntimeState, flip: Flip)
  {
    var cooldown := DirectionCooldown(s, flip.target);
    cooldown.Some? && flip.at < cooldown.value
  }

  lemma DecideCooldowns(e: Engine, d: Disk, now: Time, answer: Option<Presence>, newId: Id)
    requires InStep(e, d) && e.pc.Confirm?
    requires d.row.value.pendingDeadline.value <= now
    ensures var o := Decide(e, d, d.row.value, now, answer, newId); CooldownsMove(d, o.effect, o.disk, now)
  {
    var s := d.row.value;
    if answer == s.pendingTransition {
      var flip := Flip(answer.value, now, e.rule.cooldownSeconds * SECOND);
      if !CoolingDown(s, flip) {
        var built := BuildConfirmedTransition(e.rule, e.source, s, now, s.pendingGeneration, newId);
        assert built.Success?;
        var o := Commit(e, d, flip, built.value);
        assert CooldownsMove(d, o.effect, o.disk, now);
      }
    }
  }

  lemma StepCooldowns(e: Engine, d: Disk, input: Input, clock: Time)
    requires InStep(e, d)
    ensures
      var o := Machine.Step(e, d, input);
      CooldownsMove(d, o.effect, o.disk, Later(clock, On(input)))
  {
    match input
    case Tick(now, answer, newId) =>
      if e.pc.Confirm? && now >= d.row.value.pendingDeadline.value {
        DecideCooldowns(e, d, now, answer, newId);
      }
    case _ =>
  }

  lemma CooldownsNext(w: World, step: Step, clock: Time)
    requires Coherent(w)
    ensures CooldownsMove(w.disk, EffectOf(w, step), Next(w, step).disk, Later(clock, step))
  {
    if step.On? && Enabled(w, step.input) {
      StepCooldowns(w.engine.value, w.disk, step.input, clock);
    }
  }

  // ----- the refinement -----

  predicate Refines(h: History, disk: Disk, clock: Time)
  {
    && Kept(h.journal, h.lifetime) == Greedy(h.flips)
    && (forall k :: 0 <= k < |h.flips| ==> h.flips[k].at <= clock)
    && (disk.row.Some? ==> Folds(h, disk.row.value) && CooldownsTrack(disk.row.value, Greedy(h.flips), clock))
  }

  /** The stored presence is the first one of this lifetime, folded over all flips since. */
  predicate Folds(h: History, s: RuntimeState)
  {
    && h.baseline.Some?
    && h.baseline.value != Unknown
    && Chained(h.baseline.value, h.flips)
    && s.presence == Folded(h.baseline.value, h.flips)
  }

  predicate CooldownsTrack(s: RuntimeState, kept: seq<Flip>, clock: Time)
  {
    && Tracks(s.enterCooldownUntil, Until(kept, Inside), clock)
    && Tracks(s.exitCooldownUntil, Until(kept, Outside), clock)
  }

  /** The reference cooldowns after a step: a committed flip opens its own. */
  function KeptAfter(kept: seq<Flip>, effect: Effect): seq<Flip>
  {
    if effect.Committed? then kept + [effect.flip] else kept
  }

  lemma TracksMove(
    a: Option<Time>, effect: Effect, target: Presence, b: Option<Time>, kept: seq<Flip>, clock: Time, now: Time)
    requires Tracks(a, Until(kept, target), clock) && clock <= now
    requires CooldownMove(a, effect, target, b, now)
    ensures Tracks(b, Until(KeptAfter(kept, effect), target), now)
  {
  }

  lemma GreedyMove(h: History, a: Disk, effect: Effect, b: Disk, clock: Time, now: Time)
    requires Refines(h, a, clock) && clock <= now
    requires Move(a, effect, b) && CooldownsMove(a, effect, b, now)
    requires effect.Suppressed? || effect.Committed?
    ensures Greedy(h.flips + [effect.flip]) == KeptAfter(Greedy(h.flips), effect)
    ensures Kept(Record(h, effect).journal, h.lifetime) == KeptAfter(Kept(h.journal, h.lifetime), effect)
  {
  }

  lemma FoldsFlip(h: History, a: Disk, effect: Effect, b: Disk, clock: Time, now: Time)
    requires Refines(h, a, clock) && clock <= now
    requires Move(a, effect, b) && CooldownsMove(a, effect, b, now)
    requires a.row.Some? ==> Shaped(a.row.value)
    requires effect.Suppressed? || effect.Committed?
    ensures b.row.Some? && Folds(Record(h, effect), b.row.value)
  {
    assert Folds(h, a.row.value);
    assert Record(h, effect).flips == h.flips + [effect.flip];
    ChainedAppend(h.baseline.value, h.flips, effect.flip);
  }

  lemma CooldownsFlip(h: History, a: Disk, effect: Effect, b: Disk, clock: Time, now: Time)
    requires Refines(h, a, clock) && clock <= now
    requires Move(a, effect, b) && CooldownsMove(a, effect, b, now)
    requires effect.Suppressed? || effect.Committed?
    ensures b.row.Some? && CooldownsTrack(b.row.value, KeptAfter(Greedy(h.flips), effect), now)
  {
    var kept := Greedy(h.flips);
    assert CooldownsTrack(a.row.value, kept, clock);
    TracksMove(a.row.value.enterCooldownUntil, effect, Inside, b.row.value.enterCooldownUntil, kept, clock, now);
    TracksMove(a.row.value.exitCooldownUntil, effect, Outside, b.row.value.exitCooldownUntil, kept, clock, now);
  }

  lemma RefinesFlip(h: History, a: Disk, effect: Effect, b: Disk, clock: Time, now: Time)
    requires Refines(h, a, clock) && clock <= now
    requires Move(a, effect, b) && CooldownsMove(a, effect, b, now)
    requires a.row.Some? ==> Shaped(a.row.value)
    requires effect.Suppressed? || effect.Committed?
    ensures Refines(Record(h, effect), b, now)
  {
    FoldsFlip(h, a, effect, b, clock, now);
    CooldownsFlip(h, a, effect, b, clock, now);
    GreedyMove(h, a, effect, b, clock, now);
    assert Record(h, effect).flips == h.flips + [effect.flip];
  }

  lemma ChainedAppend(baseline: Presence, flips: seq<Flip>, flip: Flip)
    requires Chained(baseline, flips) && flip.target == Opposite(Folded(baseline, flips)) && flip.window >= 0
    requires forall k :: 0 <= k < |flips| ==> flips[k].at <= flip.at
    ensures Chained(baseline, flips + [flip])
  {
    forall k | 0 <= k <= |flips|
      ensures (flips + [flip])[k].target == Opposite(Folded(baseline, (flips + [flip])[..k]))
    {
      assert (flips + [flip])[..k] == flips[..k];
      assert flips[..|flips|] == flips;
    }
  }

  lemma RefinesMove(h: History, a: Disk, effect: Effect, b: Disk, clock: Time, now: Time)
    requires Numbered(h, a) && Refines(h, a, clock) && clock <= now
    requires Move(a, effect, b) && CooldownsMove(a, effect, b, now)
    requires a.row.Some? ==> Shaped(a.row.value)
    ensures Refines(Record(h, effect), b, now)
  {
    if effect.Suppressed? || effect.Committed? {
      RefinesFlip(h, a, effect, b, clock, now);
    } else if effect.Erased? {
      KeptNothingYet(h.journal, h.lifetime + 1);
    }
  }

  lemma {:induction false} RefinesRun(w: World, steps: seq<Step>, clock: Time)
    requires Sound(w) && Refines(w.past, w.disk, clock) && Forward(clock, steps)
    ensures Sound(Run(w, steps))
    ensures Refines(Run(w, steps).past, Run(w, steps).disk, ClockAfter(clock, steps))
    decreases |steps|
  {
    if steps != [] {
      var (step, w') := (steps[0], Next(w, steps[0]));
      CoherentNext(w, step);
      CooldownsNext(w, step, clock);
      RefinesMove(w.past, w.disk, EffectOf(w, step), w'.disk, clock, Later(clock, step));
      SoundNext(w, step);
      RefinesRun(w', steps[1..], Later(clock, step));
    }
  }

  /** In every run whose clock does not go backward: presence is the baseline folded over all
      confirmed flips, and the events of the lifetime are exactly the flips the greedy filter keeps. */
  lemma JournalRefinement(clock: Time, steps: seq<Step>)
    requires Forward(clock, steps)
    ensures
      var w := Run(Genesis(), steps);
      && Kept(w.past.journal, w.past.lifetime) == Greedy(w.past.flips)
      && (w.disk.row.Some? ==>
            && w.past.baseline.Some?
            && w.past.baseline.value != Unknown
            && Chained(w.past.baseline.value, w.past.flips)
            && w.disk.row.value.presence == Folded(w.past.baseline.value, w.past.flips))
  {
    RefinesRun(Genesis(), steps, clock);
  }

  // ----- what the filter guarantees -----

  /** Kept flips in one direction are at least the cooldown apart. */
  predicate Spaced(kept: seq<Flip>)
  {
    forall i, j :: 0 <= i < j < |kept| && kept[i].target == kept[j].target ==>
      kept[i].at + kept[i].window <= kept[j].at
  }

  lemma {:induction false} UntilCovers(kept: seq<Flip>, k: nat)
    requires Spaced(kept) && k < |kept| && forall i :: 0 <= i < |kept| ==> kept[i].window >= 0
    ensures Until(kept, kept[k].target).Some?
    ensures kept[k].at + kept[k].window <= Until(kept, kept[k].target).value
    decreases |kept|
  {
    if Last(kept).target == kept[k].target {
      assert k < |kept| - 1 ==> kept[k].at + kept[k].window <= Last(kept).at;
    } else {
      UntilCovers(kept[..|kept| - 1], k);
    }
  }

  lemma {:induction false} GreedySpaced(flips: seq<Flip>)
    requires forall k :: 0 <= k < |flips| ==> flips[k].window >= 0
    ensures Spaced(Greedy(flips))
    ensures forall k :: 0 <= k < |Greedy(flips)| ==> Greedy(flips)[k].window >= 0
  {
    if flips != [] {
      var front := flips[..|flips| - 1];
      GreedySpaced(front);
      var kept := Greedy(front);
      forall i | 0 <= i < |kept| && kept[i].target == Last(flips).target && !Cooling(kept, Last(flips))
        ensures kept[i].at + kept[i].window <= Last(flips).at
      {
        UntilCovers(kept, i);
      }
    }
  }

  /** Without a cooldown every flip is kept. */
  lemma {:induction false} GreedyKeepsAll(flips: seq<Flip>)
    requires forall i, j :: 0 <= i < j < |flips| ==> flips[i].at <= flips[j].at
    requires Uncooled(flips)
    ensures Greedy(flips) == flips
  {
    if flips != [] {
      var front := flips[..|flips| - 1];
      GreedyKeepsAll(front);
      UntilBound(front, Last(flips).target, Last(flips).at);
    }
  }

  predicate Uncooled(flips: seq<Flip>)
  {
    forall k :: 0 <= k < |flips| ==> flips[k].window == 0
  }

  lemma {:induction false} UntilBound(kept: seq<Flip>, target: Presence, at: Time)
    requires forall k :: 0 <= k < |kept| ==> kept[k].window == 0 && kept[k].at <= at
    ensures Until(kept, target).Some? ==> Until(kept, target).value <= at
  {
    if kept != [] {
      UntilBound(kept[..|kept| - 1], target, at);
    }
  }

  /** Where an entry of a lifetime sits among that lifetime's kept flips. */
  lemma {:induction false} KeptAt(journal: seq<Entry>, lifetime: nat, k: nat)
    requires k < |journal| && journal[k].lifetime == lifetime
    ensures |Kept(journal[..k], lifetime)| < |Kept(journal, lifetime)|
    ensures Kept(journal, lifetime)[|Kept(journal[..k], lifetime)|] == journal[k].flip
  {
    var front := journal[..|journal| - 1];
    if k < |front| {
      KeptAt(front, lifetime, k);
      assert front[..k] == journal[..k];
    }
  }

  lemma KeptOrder(journal: seq<Entry>, lifetime: nat, i: nat, j: nat)
    requires i < j < |journal| && journal[i].lifetime == lifetime
    ensures |Kept(journal[..i], lifetime)| < |Kept(journal[..j], lifetime)|
  {
    KeptAt(journal[..j], lifetime, i);
    assert journal[..j][..i] == journal[..i];
  }

  /** Across any crashes and recoveries, events of one lifetime in one direction are at least the
      first one's cooldown apart. */
  lemma CooldownRespected(clock: Time, steps: seq<Step>, i: nat, j: nat)
    requires Forward(clock, steps)
    requires
      var h := Run(Genesis(), steps).past;
      && i < j < |h.journal|
      && h.journal[i].lifetime == h.journal[j].lifetime == h.lifetime
      && h.journal[i].event.eventType == h.journal[j].event.eventType
    ensures
      var h := Run(Genesis(), steps).past;
      h.journal[i].event.confirmedAt + h.journal[i].flip.window <= h.journal[j].event.confirmedAt
  {
    RefinesRun(Genesis(), steps, clock);
    var h := Run(Genesis(), steps).past;
    assert WholeEntry(h.journal[i]) && WholeEntry(h.journal[j]);
    assert Folds(h, Run(Genesis(), steps).disk.row.value);
    KeptSpaced(h, i, j);
  }

  lemma KeptSpaced(h: History, i: nat, j: nat)
    requires Kept(h.journal, h.lifetime) == Greedy(h.flips)
    requires forall k :: 0 <= k < |h.flips| ==> h.flips[k].window >= 0
    requires i < j < |h.journal| && h.journal[i].lifetime == h.journal[j].lifetime == h.lifetime
    requires h.journal[i].flip.target == h.journal[j].flip.target
    ensures h.journal[i].flip.at + h.journal[i].flip.window <= h.journal[j].flip.at
  {
    GreedySpaced(h.flips);
    KeptAt(h.journal, h.lifetime, i);
    KeptAt(h.journal, h.lifetime, j);
    KeptOrder(h.journal, h.lifetime, i, j);
  }

  /** Neighbours point in opposite directions. */
  predicate Alternates(flips: seq<Flip>)
  {
    forall k :: 0 < k < |flips| ==> flips[k].target == Opposite(flips[k - 1].target)
  }

  lemma ChainedAlternates(baseline: Presence, flips: seq<Flip>)
    requires Chained(baseline, flips)
    ensures Alternates(flips)
  {
  }

  lemma KeptAlternates(h: History, disk: Disk, clock: Time)
    requires Refines(h, disk, clock) && Uncooled(h.flips) && (disk.row.None? ==> h.flips == [])
    ensures Alternates(Kept(h.journal, h.lifetime))
  {
    if h.flips != [] {
      GreedyKeepsAll(h.flips);
      ChainedAlternates(h.baseline.value, h.flips);
    }
  }

  /** With no cooldown, the events of a lifetime strictly alternate between enter and exit. */
  lemma EventsAlternate(clock: Time, steps: seq<Step>)
    requires Forward(clock, steps) && Uncooled(Run(Genesis(), steps).past.flips)
    ensures var h := Run(Genesis(), steps).past; Alternates(Kept(h.journal, h.lifetime))
  {
    RefinesRun(Genesis(), steps, clock);
    var w := Run(Genesis(), steps);
    KeptAlternates(w.past, w.disk, ClockAfter(clock, steps));
  }
}
