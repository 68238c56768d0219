/** Steps that leave no trace, the order in which samples are processed, and the
    bound on the readings one confirmation makes. */
module Erasure {
  import opened Wrappers
  import opened Models
  import opened RuntimeStates
  import opened Machine
  import opened Worlds
  import opened Safety

  // ----- inert steps -----

  /** A sample that is unusable, unclassified or older than the last processed one, or a callback
      whose generation is outdated or has nothing pending. */
  predicate Inert(disk: Disk, step: Step)
  {
    match step
    case On(Ignored) => true
    case On(Sample(o, _)) => o.presence == Unknown || (disk.row.Some? && IsStale(disk.row.value, o))
    case On(Fire(generation)) =>
      disk.row.None? || disk.row.value.pendingGeneration != generation || !PendingComplete(disk.row.value)
    case _ => false
  }

  /** The run without the chosen steps, where only inert steps may be chosen. */
  function Thinned(w: World, steps: seq<Step>, drop: seq<bool>): seq<Step>
    requires |drop| == |steps|
    decreases |steps|
  {
    if steps == [] then []
    else
      var rest := Thinned(Next(w, steps[0]), steps[1..], drop[1..]);
      if drop[0] && Inert(w.disk, steps[0]) then rest else [steps[0]] + rest
  }

  lemma InertNext(w: World, step: Step)
    requires Coherent(w) && Inert(w.disk, step)
    ensures Next(w, step) == w
  {
  }

  lemma {:induction false} ThinnedRun(w: World, steps: seq<Step>, drop: seq<bool>)
    requires Coherent(w) && |drop| == |steps|
    ensures Run(w, Thinned(w, steps, drop)) == Run(w, steps)
    decreases |steps|
  {
    if steps != [] {
      var step := steps[0];
      CoherentNext(w, step);
      ThinnedRun(Next(w, step), steps[1..], drop[1..]);
      if drop[0] && Inert(w.disk, step) {
        InertNext(w, step);
      } else {
        RunCons(w, step, Thinned(Next(w, step), steps[1..], drop[1..]));
      }
    }
  }

  /** Deleting from any run any of its inert steps leaves the whole final world as it was. */
  lemma InertStepsErasable(steps: seq<Step>, drop: seq<bool>)
    requires |drop| == |steps|
    ensures Run(Genesis(), Thinned(Genesis(), steps, drop)) == Run(Genesis(), steps)
  {
    ThinnedRun(Genesis(), steps, drop);
  }

  // ----- samples are processed in order -----

  /** The stored instant of the last processed sample never decreases. */
  predicate InOrder(a: Disk, b: Disk)
  {
    a.row.Some? && b.row.Some? && a.row.value.lastProcessedAt.Some? ==>
      && b.row.value.lastProcessedAt.Some?
      && a.row.value.lastProcessedAt.value <= b.row.value.lastProcessedAt.value
  }

  lemma InOrderDecide(e: Engine, d: Disk, now: Time, answer: Option<Presence>, newId: Id)
    requires InStep(e, d) && e.pc.Confirm? && d.row.value.pendingDeadline.value <= now
    ensures InOrder(d, Decide(e, d, d.row.value, now, answer, newId).disk)
  {
  }

  lemma InOrderNext(w: World, step: Step)
    requires Coherent(w)
    ensures InOrder(w.disk, Next(w, step).disk)
  {
    match step
    case On(Tick(now, answer, newId)) =>
      if Enabled(w, step.input) && w.engine.value.pc.Confirm? && w.disk.row.value.pendingDeadline.value <= now {
        InOrderDecide(w.engine.value, w.disk, now, answer, newId);
      }
    case _ =>
  }

  /** A row that exists has a last processed sample, and lifetimes never go back. */
  predicate Processed(w: World)
  {
    w.disk.row.Some? ==> w.disk.row.value.lastProcessedAt.Some?
  }

  lemma ProcessedNext(w: World, step: Step)
    requires Coherent(w) && Processed(w)
    ensures Processed(Next(w, step))
    ensures w.past.lifetime <= Next(w, step).past.lifetime
    ensures w.disk.row.Some? && Next(w, step).disk.row.None? ==> w.past.lifetime < Next(w, step).past.lifetime
  {
    CoherentNext(w, step);
    InOrderNext(w, step);
    if w.disk.row.None? {
      BaselineProcessed(w, step);
    }
  }

  lemma BaselineProcessed(w: World, step: Step)
    requires Coherent(w) && w.disk.row.None?
    ensures Processed(Next(w, step))
  {
  }

  lemma {:induction false} InOrderRun(w: World, steps: seq<Step>)
    requires Coherent(w) && Processed(w)
    requires Run(w, steps).past.lifetime == w.past.lifetime
    ensures InOrder(w.disk, Run(w, steps).disk)
    ensures w.disk.row.Some? ==> Run(w, steps).disk.row.Some?
    decreases |steps|
  {
    if steps != [] {
      var w' := Next(w, steps[0]);
      CoherentNext(w, steps[0]);
      ProcessedNext(w, steps[0]);
      InOrderNext(w, steps[0]);
      LifetimesGrow(w', steps[1..]);
      InOrderRun(w', steps[1..]);
    }
  }

  lemma {:induction false} LifetimesGrow(w: World, steps: seq<Step>)
    requires Coherent(w) && Processed(w)
    ensures w.past.lifetime <= Run(w, steps).past.lifetime
    ensures Coherent(Run(w, steps)) && Processed(Run(w, steps))
    decreases |steps|
  {
    if steps != [] {
      CoherentNext(w, steps[0]);
      ProcessedNext(w, steps[0]);
      LifetimesGrow(Next(w, steps[0]), steps[1..]);
    }
  }

  /** Within a lifetime of the row, across any crashes and recoveries and whatever the clock does,
      the last processed instant of a row that exists never decreases. */
  lemma SamplesInOrder(steps: seq<Step>, more: seq<Step>)
    requires Run(Genesis(), steps + more).past.lifetime == Run(Genesis(), steps).past.lifetime
    ensures
      var (a, b) := (Run(Genesis(), steps).disk, Run(Genesis(), steps + more).disk);
      a.row.Some? ==>
        && b.row.Some?
        && a.row.value.lastProcessedAt.Some? && b.row.value.lastProcessedAt.Some?
        && a.row.value.lastProcessedAt.value <= b.row.value.lastProcessedAt.value
  {
    RunConcat(Genesis(), steps, more);
    LifetimesGrow(Genesis(), steps);
    InOrderRun(Run(Genesis(), steps), more);
  }

  // ----- the recursion between restoring and confirming ends -----

  /** The lock holder still has clock readings to make. */
  predicate Busy(e: Engine)
  {
    e.pc.Check? || e.pc.Restore? || e.pc.Confirm?
  }

  function Ticked(e: Engine, d: Disk, t: Time, answer: Option<Presence>, newId: Id): Outcome
  {
    Machine.Step(e, d, Tick(t, answer, newId))
  }

  /** A reading finds the deadline of a restore or a check still ahead: the step ends, and a restore has
      scheduled the deadline. */
  predicate LeftPending(e: Engine, d: Disk, t: Time)
  {
    (e.pc.Restore? || e.pc.Check?) && Pending(d) && t < d.row.value.pendingDeadline.value
  }

  /** A reading with which a step ends, either way. */
  predicate Ends(e: Engine, d: Disk, t: Time, answer: Option<Presence>, newId: Id)
  {
    LeftPending(e, d, t) || Decided(Ticked(e, d, t, answer, newId).effect)
  }

  /** While the clock does not run backward, a step makes at most three more readings, and it ends with
      exactly one of them: there it has scheduled its deadline, kept the transition pending or reached a
      decision. */
  lemma ThreeReadingsSuffice(e: Engine, d: Disk, t: seq<Time>, answer: seq<Option<Presence>>, newId: seq<Id>)
    requires InStep(e, d) && |t| == |answer| == |newId| == 3 && t[0] <= t[1] <= t[2]
    ensures
      var a := Ticked(e, d, t[0], answer[0], newId[0]);
      var b := Ticked(a.engine, a.disk, t[1], answer[1], newId[1]);
      var c := Ticked(b.engine, b.disk, t[2], answer[2], newId[2]);
      && !Busy(c.engine)
      && (Busy(e) ==>
            var ends := [Ends(e, d, t[0], answer[0], newId[0]),
                         Ends(a.engine, a.disk, t[1], answer[1], newId[1]),
                         Ends(b.engine, b.disk, t[2], answer[2], newId[2])];
            ends == [true, false, false] || ends == [false, true, false] || ends == [false, false, true])
  {
    var a := Ticked(e, d, t[0], answer[0], newId[0]);
    StepGood(e, d, Tick(t[0], answer[0], newId[0]));
    OneReading(e, d, t[0], answer[0], newId[0]);
    OneReading(a.engine, a.disk, t[1], answer[1], newId[1]);
    var b := Ticked(a.engine, a.disk, t[1], answer[1], newId[1]);
    StepGood(a.engine, a.disk, Tick(t[1], answer[1], newId[1]));
    OneReading(b.engine, b.disk, t[2], answer[2], newId[2]);
  }

  /** One reading: an early confirmation waits again, an early restore or check leaves, a due
      restore or check goes on to confirm the unchanged row, and a due confirmation decides. */
  lemma OneReading(e: Engine, d: Disk, t: Time, answer: Option<Presence>, newId: Id)
    requires InStep(e, d)
    ensures
      var o := Ticked(e, d, t, answer, newId);
      && (Ends(e, d, t, answer, newId) <==> Busy(e) && !Busy(o.engine))
      && if !Busy(e) then o.engine == e && o.disk == d
         else if d.row.value.pendingDeadline.value <= t then
           if e.pc.Confirm? then !Busy(o.engine) else o.engine == e.(pc := Confirm) && o.disk == d
         else o.disk == d && o.engine == e.(pc := if e.pc.Confirm? then Restore else Idle)
  {
  }

  /** Three are needed: a confirmation that is early by its first reading and due by its second. */
  lemma TwoReadingsMayNotSuffice(e: Engine, d: Disk, answer: Option<Presence>, newId: Id)
    requires InStep(e, d) && e.pc.Confirm?
    ensures
      var deadline := d.row.value.pendingDeadline.value;
      var a := Ticked(e, d, deadline - 1, answer, newId);
      var b := Ticked(a.engine, a.disk, deadline, answer, newId);
      Busy(b.engine)
  {
  }
}
