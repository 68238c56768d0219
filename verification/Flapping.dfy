/** Hysteresis against flapping: between two confirmed changes of presence the tracker has
    crossed the whole hysteresis band. */
module Flapping {
  import opened Wrappers
  import opened Models
  import opened Machine
  import opened Worlds
  import opened Safety
  import opened Geofence

  /** A fixed place and exit margin. */
  datatype Fence = Fence(geometry: Geometry, margin: real)

  /** What a re-check finds: the tracker, and what surrounds it. */
  datatype Finding = Finding(tracker: Option<TrackerState>, around: Surroundings)

  /** The place, whenever it resolves, and the margin are the fence's. */
  predicate AtFence(finding: Finding, fence: Fence)
  {
    && finding.around.thresholds.exitMargin == fence.margin
    && var place := ResolvePlace(finding.around.place, finding.around.zone);
       (place.Success? ==> place.value == fence.geometry)
  }

  /** How far the tracker was found from the place. */
  function Measured(finding: Finding, fence: Fence, distance: Distance): real
  {
    if finding.tracker.None? then 0.0
    else
      match Normalize(finding.tracker.value, None)
      case Failure(_) => 0.0
      case Success(n) => distance(n.coordinates, fence.geometry.center)
  }

  /** If this step consults the re-check, the answer is the re-check's. Nothing is asked of samples:
      they may have been evaluated against any presence, at any time. */
  predicate Honest(w: World, step: Worlds.Step, finding: Finding, distance: Distance)
  {
    step.On? && step.input.Tick? && w.disk.row.Some? ==>
      step.input.answer == ReCheck(finding.tracker, finding.around, w.disk.row.value, distance)
  }

  predicate AllHonest(w: World, steps: seq<Worlds.Step>, findings: seq<Finding>, fence: Fence, distance: Distance)
    requires |steps| == |findings|
    decreases |steps|
  {
    steps == [] ||
    (&& AtFence(findings[0], fence) && Honest(w, steps[0], findings[0], distance)
     && AllHonest(Next(w, steps[0]), steps[1..], findings[1..], fence, distance))
  }

  /** The distances measured at the confirming re-checks of the present lifetime. */
  function Crossings(
    w: World, steps: seq<Worlds.Step>, findings: seq<Finding>, fence: Fence, distance: Distance, before: seq<real>)
    : seq<real>
    requires |steps| == |findings|
    decreases |steps|
  {
    if steps == [] then before
    else
      Crossings(Next(w, steps[0]), steps[1..], findings[1..], fence, distance,
                Measure(before, EffectOf(w, steps[0]), findings[0], fence, distance))
  }

  function Measure(before: seq<real>, effect: Effect, finding: Finding, fence: Fence, distance: Distance): seq<real>
  {
    match effect
    case Suppressed(_) => before + [Measured(finding, fence, distance)]
    case Committed(_, _) => before + [Measured(finding, fence, distance)]
    case Baseline(_) => []
    case Erased => []
    case _ => before
  }

  // ----- the invariant -----

  /** The distance lies on the flip's side of the band. */
  predicate Beyond(flip: Flip, d: real, fence: Fence)
  {
    match flip.target
    case Inside => d <= fence.geometry.radius
    case Outside => fence.geometry.radius + fence.margin <= d
    case Unknown => false
  }

  predicate Alternating(flips: seq<Flip>)
  {
    forall k :: 0 < k < |flips| ==> flips[k].target == Opposite(flips[k - 1].target)
  }

  predicate Crossed(h: History, disk: Disk, distances: seq<real>, fence: Fence)
  {
    && |distances| == |h.flips|
    && Alternating(h.flips)
    && (forall k :: 0 <= k < |distances| ==> Beyond(h.flips[k], distances[k], fence))
    && (disk.row.Some? && h.flips != [] ==> disk.row.value.presence == h.flips[|h.flips| - 1].target)
    && (disk.row.None? ==> h.flips == [])
  }

  /** Every flip was answered for by the re-check of its step. */
  lemma FlipAnswered(w: World, step: Worlds.Step)
    requires Coherent(w)
    ensures
      var effect := EffectOf(w, step);
      effect.Suppressed? || effect.Committed? ==>
        step.On? && step.input.Tick? && step.input.answer == Some(effect.flip.target)
  {
  }

  lemma FlipBeyond(w: World, step: Worlds.Step, finding: Finding, fence: Fence, distance: Distance)
    requires Coherent(w) && AtFence(finding, fence) && Honest(w, step, finding, distance)
    ensures
      var effect := EffectOf(w, step);
      effect.Suppressed? || effect.Committed? ==>
        && w.disk.row.Some? && effect.flip.target == Opposite(w.disk.row.value.presence)
        && Beyond(effect.flip, Measured(finding, fence, distance), fence)
  {
    var effect := EffectOf(w, step);
    FlipAnswered(w, step);
    CoherentNext(w, step);
    if effect.Suppressed? || effect.Committed? {
      var s := w.disk.row.value;
      var raw := finding.tracker.value;
      EvaluationMeans(raw, finding.around, Some(s), distance);
      SameCoordinates(raw, s.lastProcessedAt);
    }
  }

  /** What a sample measures does not depend on the staleness check. */
  lemma SameCoordinates(raw: TrackerState, last: Option<Time>)
    requires Normalize(raw, last).Success?
    ensures Normalize(raw, None) == Normalize(raw, last)
  {
  }

  lemma CrossedNext(
    w: World, step: Worlds.Step, finding: Finding, fence: Fence, distance: Distance, distances: seq<real>)
    requires Coherent(w) && AtFence(finding, fence) && Honest(w, step, finding, distance)
    requires Crossed(w.past, w.disk, distances, fence)
    ensures
      Crossed(Next(w, step).past, Next(w, step).disk,
              Measure(distances, EffectOf(w, step), finding, fence, distance), fence)
  {
    CoherentNext(w, step);
    FlipBeyond(w, step, finding, fence, distance);
    CrossedMove(w.past, w.disk, EffectOf(w, step), Next(w, step).disk, distances,
                Measured(finding, fence, distance), finding, fence, distance);
  }

  lemma CrossedMove(
    h: History, a: Disk, effect: Effect, b: Disk, distances: seq<real>, d: real,
    finding: Finding, fence: Fence, distance: Distance)
    requires Crossed(h, a, distances, fence) && Move(a, effect, b) && d == Measured(finding, fence, distance)
    requires
      effect.Suppressed? || effect.Committed? ==>
        a.row.Some? && effect.flip.target == Opposite(a.row.value.presence) && Beyond(effect.flip, d, fence)
    ensures Crossed(Record(h, effect), b, Measure(distances, effect, finding, fence, distance), fence)
  {
  }

  lemma {:induction false} CrossedRun(
    w: World, steps: seq<Worlds.Step>, findings: seq<Finding>, fence: Fence, distance: Distance, distances: seq<real>)
    requires |steps| == |findings| && AllHonest(w, steps, findings, fence, distance)
    requires Coherent(w) && Crossed(w.past, w.disk, distances, fence)
    ensures
      Crossed(Run(w, steps).past, Run(w, steps).disk,
              Crossings(w, steps, findings, fence, distance, distances), fence)
    decreases |steps|
  {
    if steps != [] {
      CrossedNext(w, steps[0], findings[0], fence, distance, distances);
      CoherentNext(w, steps[0]);
      CrossedRun(Next(w, steps[0]), steps[1..], findings[1..], fence, distance,
                 Measure(distances, EffectOf(w, steps[0]), findings[0], fence, distance));
    }
  }

  // ----- total variation -----

  function Gap(a: real, b: real): (gap: real)
    ensures gap >= 0.0 && gap >= a - b && gap >= b - a
  {
    if a <= b then b - a else a - b
  }

  function Variation(distances: seq<real>): real
  {
    if |distances| <= 1 then 0.0
    else Variation(distances[..|distances| - 1]) + Gap(distances[|distances| - 2], distances[|distances| - 1])
  }

  /** The margin so many times over. */
  function Times(n: nat, margin: real): real
  {
    if n == 0 then 0.0 else Times(n - 1, margin) + margin
  }

  lemma {:induction false} TimesIsProduct(n: nat, margin: real)
    ensures Times(n, margin) == n as real * margin
  {
    if n > 0 {
      TimesIsProduct(n - 1, margin);
    }
  }

  /** Two flips in opposite directions are at least the margin apart. */
  lemma BandIsCrossed(a: Flip, b: Flip, x: real, y: real, fence: Fence)
    requires Beyond(a, x, fence) && Beyond(b, y, fence) && b.target == Opposite(a.target)
    ensures Gap(x, y) >= fence.margin
  {
  }

  lemma {:induction false} AlternationVaries(flips: seq<Flip>, distances: seq<real>, fence: Fence)
    requires |flips| == |distances| > 0 && Alternating(flips)
    requires forall k :: 0 <= k < |flips| ==> Beyond(flips[k], distances[k], fence)
    ensures Variation(distances) >= Times(|distances| - 1, fence.margin)
    decreases |flips|
  {
    var n := |flips|;
    if n > 1 {
      AlternationVaries(flips[..n - 1], distances[..n - 1], fence);
      BandIsCrossed(flips[n - 2], flips[n - 1], distances[n - 2], distances[n - 1], fence);
    }
  }

  /** The distances at alternating flips vary by at least the margin at each. */
  predicate Travels(flips: seq<Flip>, distances: seq<real>, fence: Fence)
  {
    flips != [] ==> Variation(distances) >= (|flips| - 1) as real * fence.margin
  }

  lemma CrossedTravels(h: History, disk: Disk, distances: seq<real>, fence: Fence)
    requires Crossed(h, disk, distances, fence)
    ensures Travels(h.flips, distances, fence)
  {
    if h.flips != [] {
      AlternationVaries(h.flips, distances, fence);
      TimesIsProduct(|h.flips| - 1, fence.margin);
    }
  }

  /** For a fixed place and margin, the k flips of a lifetime alternate, each was confirmed beyond its
      side of the band, and the tracker has travelled at least k - 1 margins between them. */
  lemma AntiFlapping(steps: seq<Worlds.Step>, findings: seq<Finding>, fence: Fence, distance: Distance)
    requires |steps| == |findings| && AllHonest(Genesis(), steps, findings, fence, distance)
    ensures
      var flips := Run(Genesis(), steps).past.flips;
      var distances := Crossings(Genesis(), steps, findings, fence, distance, []);
      && |distances| == |flips|
      && Alternating(flips)
      && (forall k :: 0 <= k < |flips| ==> Beyond(flips[k], distances[k], fence))
      && Travels(flips, distances, fence)
  {
    CrossedRun(Genesis(), steps, findings, fence, distance, []);
    var w := Run(Genesis(), steps);
    CrossedTravels(w.past, w.disk, Crossings(Genesis(), steps, findings, fence, distance, []), fence);
  }
}
