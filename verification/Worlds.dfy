/** One rule over time: the engine that currently serves it (if a process is
    alive), what the database holds for it, and everything that has happened.

    A run is any sequence of steps. Callbacks may fire with any generation at
    any moment, the process may die between any two steps, and maintenance may
    rewrite the stored part whenever no engine is accepting. */
module Worlds {
  import opened Wrappers
  import opened Models
  import opened RuntimeStates
  import opened Machine

  /** A committed event with the evidence interval [from, to) that led to it. */
  datatype Entry = Entry(
    lifetime: nat,
    id: Id,
    event: LocationEvent,
    flip: Flip,
    under: Option<Rule>,
    from: nat,
    to: nat)

  datatype History = History(
    lifetime: nat,             // how often the runtime row has been erased
    evidence: seq<Presence>,   // every accepted sample and every answering re-check, in order
    began: nat,                // where in the evidence the pending transition began
    under: Option<Rule>,       // the rule in force when it began
    baseline: Option<Presence>, // the first presence of this lifetime
    flips: seq<Flip>,          // the confirmed changes of this lifetime
    journal: seq<Entry>,       // every event ever committed, in commit order
    notes: seq<Id>,            // every notification, in order
    nextId: Id)                // identifiers below this one may have been drawn

  datatype World = World(engine: Option<Engine>, disk: Disk, past: History)

  datatype Step =
    | On(input: Input)
    | Crash
    | Start(rule: Rule, source: Source, storeCoordinates: bool, now: Time) // a new engine recovers from disk
    | Purge(gone: set<Key>, forget: bool)  // maintenance deletes events and may clear the row's reference
    | Wipe(gone: set<Key>)                 // the row is erased, and these events with it

  function Genesis(): World
  {
    World(None, Disk(None, {}), History(0, [], 0, None, None, [], [], [], 0))
  }

  function Record(h: History, effect: Effect): History
  {
    match effect
    case Nothing => h
    case Silent => h
    case Broken(_) => h
    case Baseline(p) => h.(evidence := h.evidence + [p], baseline := Some(p), flips := [])
    case Agreed(p) => h.(evidence := h.evidence + [p])
    case Refreshed(p) => h.(evidence := h.evidence + [p])
    case Cancelled(p) => h.(evidence := h.evidence + [p])
    case Duplicate(p) => h.(evidence := h.evidence + [p])
    case Began(p, rule) => h.(evidence := h.evidence + [p], began := |h.evidence|, under := Some(rule))
    case Suppressed(flip) => h.(evidence := h.evidence + [flip.target], flips := h.flips + [flip])
    case Committed(flip, transition) =>
      h.(evidence := h.evidence + [flip.target],
         flips := h.flips + [flip],
         journal := h.journal + [Entry(h.lifetime, transition.eventId, EventOf(transition), flip,
                                       h.under, h.began, |h.evidence| + 1)],
         nextId := transition.eventId + 1)
    case Announced(id) => h.(notes := h.notes + [id])
    case Erased => h.(lifetime := h.lifetime + 1, baseline := None, flips := [])
  }

  /** No engine accepts, so nothing but maintenance and recovery can change the stored part. */
  predicate Drained(w: World)
  {
    w.engine.Some? ==> !w.engine.value.accepting && w.engine.value.pc.Idle?
  }

  /** The engine, the stored part and the effect after a step. */
  function Act(w: World, step: Step): (Option<Engine>, Disk, Effect)
  {
    match step
    case On(input) =>
      if Enabled(w, input) then Act3(Machine.Step(w.engine.value, w.disk, input)) else (w.engine, w.disk, Nothing)
    case Crash => (None, w.disk, Nothing)
    case Start(rule, source, storeCoordinates, now) =>
      if Drained(w) then Act3(Recover(rule, source, storeCoordinates, w.disk, now)) else (w.engine, w.disk, Nothing)
    case Purge(gone, forget) =>
      if Drained(w) then
        (w.engine, Disk(if forget then Forget(w.disk.row) else w.disk.row, w.disk.keys - gone), Nothing)
      else
        (w.engine, w.disk, Nothing)
    case Wipe(gone) =>
      if Drained(w) then (w.engine, Disk(None, w.disk.keys - gone), Erased) else (w.engine, w.disk, Nothing)
  }

  function Act3(o: Outcome): (Option<Engine>, Disk, Effect)
  {
    (Some(o.engine), o.disk, o.effect)
  }

  function Next(w: World, step: Step): World
  {
    var (engine, disk, effect) := Act(w, step);
    World(engine, disk, Record(w.past, effect))
  }

  /** A living engine takes any input; drawn identifiers are new. */
  predicate Enabled(w: World, input: Input)
  {
    w.engine.Some? && (input.Tick? ==> input.newId >= w.past.nextId)
  }

  function Forget(row: Option<RuntimeState>): Option<RuntimeState>
  {
    match row
    case None => None
    case Some(s) => Some(s.(lastEventId := None, lastEventType := None, lastEventAt := None))
  }

  function Run(w: World, steps: seq<Step>): World
    decreases |steps|
  {
    if steps == [] then w else Run(Next(w, steps[0]), steps[1..])
  }

  lemma RunCons(w: World, step: Step, rest: seq<Step>)
    ensures Run(w, [step] + rest) == Run(Next(w, step), rest)
  {
  }

  lemma {:induction false} RunConcat(w: World, a: seq<Step>, b: seq<Step>)
    ensures Run(w, a + b) == Run(Run(w, a), b)
    decreases |a|
  {
    if a == [] {
      assert a + b == b;
    } else {
      RunConcat(Next(w, a[0]), a[1..], b);
      assert (a + b)[1..] == a[1..] + b;
    }
  }

  lemma OnStep(w: World, e: Engine, input: Input)
    requires w.engine == Some(e) && (input.Tick? ==> input.newId >= w.past.nextId)
    ensures
      var o := Machine.Step(e, w.disk, input);
      Next(w, On(input)) == World(Some(o.engine), o.disk, Record(w.past, o.effect))
  {
  }

  lemma RecordDraws(h: History, effect: Effect)
    ensures Record(h, effect).nextId == if effect.Committed? then effect.transition.eventId + 1 else h.nextId
  {
  }

  lemma RecordAnnounces(h: History, effect: Effect)
    ensures Record(h, effect).notes == if effect.Announced? then h.notes + [effect.event] else h.notes
  {
  }

  /** The clock reading a step makes, if any. */
  function ReadingOf(step: Step): Option<Time>
  {
    match step
    case On(Sample(_, now)) => Some(now)
    case On(Tick(now, _, _)) => Some(now)
    case Start(_, _, _, now) => Some(now)
    case _ => None
  }

  /** The clock after a step that does not run it backward. */
  function Later(clock: Time, step: Step): Time
  {
    match ReadingOf(step)
    case None => clock
    case Some(now) => now
  }

  predicate Forward(clock: Time, steps: seq<Step>)
    decreases |steps|
  {
    steps == [] || (clock <= Later(clock, steps[0]) && Forward(Later(clock, steps[0]), steps[1..]))
  }

  function ClockAfter(clock: Time, steps: seq<Step>): Time
    decreases |steps|
  {
    if steps == [] then clock else ClockAfter(Later(clock, steps[0]), steps[1..])
  }
}
