# Geofence Journal: a verified model

Geofence Journal records when a tracker enters or leaves a place. Each recording rule has an
engine: a debounce and cooldown state machine whose runtime row and events live in SQLite. This
project models the engine with its database, the manager that drains and rebuilds engines around
maintenance, the hysteresis that feeds them, and the encodings the storage relies on, and proves
what the program is for.

## How it is built

* `Models`, `RuntimeStates`: the records, and the pure functions that build runtime states and
  transitions.
* `Machine`: the engine as a state machine. A step reads the clock at most once and makes at most
  one durable write; a program counter says how a step that still holds the lock goes on. So a crash
  "anywhere" is a crash between two steps.
* `Worlds`: one rule over time. A run is any sequence of inputs, crashes, restarts and maintenance;
  clock readings, re-check answers and callback generations are arbitrary inputs. A history records
  evidence, flips, events and notifications. A *lifetime* of a row ends when the row is erased.
* `Outcomes`: what each input makes of an engine's row, its events and its timers, field by field, and a
  whole transition from its first sample to its event.
* `Safety`, `Provenance`, `Refinement`, `Duplicates`, `Restart`, `Erasure`, `Alarms`: the theorems
  about all runs. Where a clock that does not run backward is needed, the statement says so
  (`Forward`).
* `Tables`, `Audit`, `Operations`, `Maintenance`, `Effects`: the database as a value, its invariant, what
  each operation makes of its columns, and what any sequence of operations does to it.
* `Database`: the same as an object with transactions and statements that constraints may refuse.
* `Host`, `Driving`, `TransitionEngine`: the engine as an object over that database, with a clock, a
  scheduler that records how long each call is to wait, a re-check that evaluates the live tracker against
  the engine's state, and an observer. Each method is proved to do exactly what the machine does.
* `Lifting`: what the methods do, call after call and object after object, through timers, crashes in
  the middle of a call, replacement and maintenance, is a run with its timers, in clock order if the
  clock is. So what holds of every run holds of the objects that serve a rule one after the other.
* `Leftovers`: the timers that an engine lets go of without cancelling them.
* `Faults`, `Stranding`: what is left when storage errors roll writes back while the engine lives on.
* `Sites`, `Drain`: the whole installation as a state machine in which engines, old timers,
  services and the manager interleave freely. `Interruptions`: rebuilds that an error ends early.
  `Progress`: every maintenance and every refresh can be carried through.
* `Projections`, `Guarantees`: every rule's part of a run of the installation is a run of its world;
  what this means for the events that the database retains.
* `Fleets`: several engines with one clock, one source of identifiers and one database, as values: what
  a tracker state, a callback or a rebuild does to all of them. `FleetLives`: each of them still lives a
  run of its own.
* `Runtimes`, `Listening`, `Management`: the listener, the manager and the management backend as
  objects that loop over engine objects, proved to do to their fleet what `Fleets` says.
* `Geofence`, `Flapping`: evaluation of a tracker state, and the bound on flapping.
* `UtcText`, `SqlValues`, `RowCodec`, `Csv`: the time text, the row format and the export.

## What the proofs found

* **A duplicate is possible, in one case only.** The engine's `created=False` branch is unreachable
  until a row is erased. Deactivation erases the row and resets the generation but keeps the events,
  so a later transition may meet an old key. `Safety.DuplicateExactly` says exactly when;
  `Duplicates.DuplicateNeedsStandstill` shows that, with a clock that does not run backward, it takes
  zero confirmation seconds and a clock that has not moved since; `Duplicates.DuplicateHappens` is
  such a run, and `Guarantees.NoDuplicates` excludes it as long as no rule is retired. The event is
  lost and the transition stays pending without a timer until the next sample. In the program as
  deployed, deactivation is never reached: only a refresh deactivates, and a refresh runs only at
  start, when there are no engines yet.
* **An interrupted rebuild loses engines.** If a storage error ends a rebuild after an engine has
  been built, that engine goes on accepting although the manager has forgotten it, and the next drain
  builds a second one for its rule. `Interruptions.InterruptExactly` gives the exact condition,
  `Interruptions.InterruptedRebuildDoubles` shows the consequence from every such state, and
  `Interruptions.TwoEnginesHappen` is a whole run.
* **A suspended engine may leave a timer behind.** The engine lets go of a live timer without cancelling
  it whenever a sample at the deadline overtakes that timer: at a re-check that gives no answer or
  cancels, at a commit or a refused append, or when it schedules once more. Suspension cancels only the
  handle it still holds. `Leftovers.SuspensionLeavesExactly` says after every run which timers are left;
  they only ever reach an engine that no longer accepts.
* **A failed save leaves memory ahead of the row**, because memory changes first.
  `Faults.FailureParts` says which failing steps do this and `Faults.MemoryExactly` when memory and row
  differ after any run. Exactly-once survives (`Faults.ErrorsKeepExactlyOnce`).
* **A failed save or append may strand a transition**: nothing is scheduled for it
  (`Stranding.StrandingHappens`). `Stranding.NextSampleRepairs` says exactly which next sample sees to it;
  one that speaks for the transition before its deadline does not.
* **Neutralised text is not injective.** `=1` and `'=1` export alike; `Csv.NeutralCollision` says
  exactly which texts collide.

## Model

Rows marked "(supporting)" state facts that the other rows rest on or illustrate.

| member | source | states |
|---|---|---|
| Safety.PendingStructure | custom_components/geofence_journal/runtime/engine.py:113-186 | in every run, with any clock, any crash and any callback: presence is known, a pending transition is whole and points away from it, an accepting engine remembers exactly its row, and the incomplete-transition, unknown-target and lost-row errors never occur |
| Safety.DwellGuarantee | custom_components/geofence_journal/runtime/engine.py:209-255 | under arbitrary clock jumps, from every event's start to its deadline lie the seconds that the rule in force at the start asks for in the event's direction, the deadline had passed at confirmation, and every accepted sample and answering re-check from start to commit spoke for the new presence |
| Safety.ExactlyOnce | custom_components/geofence_journal/runtime/engine.py:246-264 | within a row lifetime event generations strictly increase along the journal; event identifiers never repeat; notifications follow the journal in order, none twice and none before its commit |
| Safety.DuplicateExactly | custom_components/geofence_journal/storage/transitions.py:31-40 | a due, agreeing confirmation outside its cooldown is refused as a duplicate if and only if an event kept from an earlier lifetime of the row has the pending generation and deadline; otherwise it commits |
| Safety.NoDuplicateInFirstLifetime | custom_components/geofence_journal/runtime/engine.py:256-264 | until a row is first erased no confirmation is a duplicate |
| Outcomes.TransitionIsRecorded | custom_components/geofence_journal/runtime/engine.py:113-264 | a change of presence that lasts is recorded: an opposite sample, a reading before the deadline, the callback, an agreeing re-check at or after the deadline and outside the cooldown leave exactly one more event, which begins with the sample, is confirmed by the re-check, names the rule and its direction, carries the sample's accuracy and, where they are kept, its coordinates, and is announced once; presence is the new one and nothing is pending |
| Outcomes.FirstSample | custom_components/geofence_journal/runtime/engine.py:124-141 | (supporting) the first usable sample of a lifetime becomes the baseline: every column of the new row |
| Outcomes.LaterSample | custom_components/geofence_journal/runtime/engine.py:113-186 | (supporting) any later sample is dropped, ends a pending transition, refreshes it, or begins one with the next generation and its own direction's seconds to wait; every other column keeps its value |
| Outcomes.Callback | custom_components/geofence_journal/runtime/engine.py:203-219 | (supporting) a callback takes up a transition if and only if one is pending in its own generation |
| Outcomes.Waiting | custom_components/geofence_journal/runtime/engine.py:188-224 | (supporting) a reading before the deadline leaves the transition pending, one at or after it goes on to the confirmation |
| Outcomes.DecidedWithoutEvent | custom_components/geofence_journal/runtime/engine.py:225-248 | (supporting) a missing answer changes nothing; a contrary one ends the transition; one within its direction's cooldown changes the presence; no event is recorded |
| Outcomes.DecidedWithEvent | custom_components/geofence_journal/runtime/engine.py:249-264 | (supporting) otherwise event and row are recorded column by column, with the cooldown of the event's own direction, unless the key is taken, and then nothing changes |
| Outcomes.SampleCancels | custom_components/geofence_journal/runtime/engine.py:143-186 | (supporting) a sample cancels the held call if and only if it ends or begins a transition |
| Outcomes.DecisionLetsGo | custom_components/geofence_journal/runtime/engine.py:225-264 | (supporting) a decision cancels no call; it says of each answer whether the handle is kept |
| Outcomes.RecoveryKeepsTheRow | custom_components/geofence_journal/runtime/engine.py:60-82 | an enabled rule's start over a stored row leaves memory and row equal to it, pending transition and all, but each cooldown is kept if it is later than now and cleared otherwise |
| Outcomes.RecoveryWithoutRow | custom_components/geofence_journal/runtime/engine.py:60-82 | (supporting) a start without a row remembers nothing; one of a rule that is switched off erases the row and does not accept |
| Outcomes.Ending | custom_components/geofence_journal/runtime/engine.py:99-111 | (supporting) suspension keeps memory and row; deactivation keeps neither, but every event |
| Duplicates.DuplicateNeedsStandstill | custom_components/geofence_journal/runtime/engine.py:256-264 | with a clock that does not run backward a duplicate needs a transition whose rule, when it began, asked for zero seconds in its direction, and which began at the very instant at which an event of an earlier lifetime was confirmed |
| Duplicates.DuplicateHappens | custom_components/geofence_journal/runtime/engine.py:99-105 | a concrete run in which this happens: the second enter event of a rule that was deactivated and came back at the same instant is lost and the transition stays pending |
| Guarantees.NoDuplicates | custom_components/geofence_journal/runtime/engine.py:256-264 | as long as no storage error interrupts a rebuild that has built an engine, in every run of the whole installation in which no rule is retired (it may be reset, purged, drained, restarted and killed at will), no step of any accepting engine is ever refused as a duplicate |
| Duplicates.OneWinner | custom_components/geofence_journal/runtime/engine.py:246-264 | (supporting) when two engines on one database confirm the same transition, the first records the event, the second records nothing and its memory becomes the stored row |
| Provenance.EventsCarryTheLastSample | custom_components/geofence_journal/runtime/confirmation.py:20-52 | each event names the engine's rule, tracker, place and journal, and carries the accuracy of the last accepted sample and its coordinates only where privacy allowed the accepting engine to keep them |
| Provenance.DirectionSeconds | custom_components/geofence_journal/runtime/state.py:98-108 | (supporting) a step that begins a transition leaves a pending row whose deadline lies its own direction's seconds after its start |
| Provenance.CooldownOpened | custom_components/geofence_journal/runtime/state.py:124-173 | (supporting) an event opens a cooldown of the rule's length in its own direction and leaves the other direction's alone |
| Refinement.JournalRefinement | custom_components/geofence_journal/runtime/engine.py:240-255 | with a clock that does not run backward, presence is the baseline folded over all confirmed flips and the events of the lifetime are exactly the flips that a greedy per-direction cooldown filter keeps, across any crashes and recoveries |
| Refinement.GreedySpaced | custom_components/geofence_journal/runtime/state.py:124-136 | the reference filter keeps flips of one direction at least their cooldown apart |
| Refinement.CooldownRespected | custom_components/geofence_journal/runtime/state.py:124-173 | with a clock that does not run backward, events of the present lifetime in one direction are at least the first one's cooldown apart |
| Refinement.EventsAlternate | custom_components/geofence_journal/runtime/state.py:139-173 | with such a clock and no cooldown, the events of the present lifetime strictly alternate between enter and exit |
| Restart.RestartIsTransparent | custom_components/geofence_journal/runtime/engine.py:60-82 | a crash and recovery at any point of any run, even between two writes of one step, gives the world that one deadline callback for the pending generation gives at that instant, up to the time of the last write, ended cooldowns and notifications; a pending deadline is never moved |
| Restart.RestartStaysTransparent | custom_components/geofence_journal/runtime/engine.py:188-264 | and every continuation yields the same journal and the same flips |
| Erasure.InertStepsErasable | custom_components/geofence_journal/runtime/engine.py:84-123 | deleting from any run any ignored, unknown or outdated samples and any callbacks with an outdated generation or nothing pending leaves the whole final world unchanged |
| Erasure.SamplesInOrder | custom_components/geofence_journal/runtime/engine.py:117-123 | within a lifetime the last processed instant never decreases, across crashes and recoveries and whatever the clock does |
| Erasure.ThreeReadingsSuffice | custom_components/geofence_journal/runtime/engine.py:188-221 | with nondecreasing readings the mutual recursion of restoring and confirming ends within three readings, with exactly one of them: there it decides, or it finds the deadline ahead, where a restore has scheduled it and a check keeps the transition pending |
| Erasure.TwoReadingsMayNotSuffice | custom_components/geofence_journal/runtime/engine.py:188-221 | (supporting) three is the exact bound |
| Alarms.NoLostWakeUp | custom_components/geofence_journal/runtime/engine.py:188-239 | whatever the clock does, an accepting engine with a pending transition has a live timer or a waiting callback of its generation, or its last due re-check gave no answer, or (only after the row was erased once) its append was refused |
| Alarms.ScheduledForTheDeadline | custom_components/geofence_journal/runtime/engine.py:188-201 | (supporting) the call for a pending transition carries its generation and is to wait exactly until its deadline |
| Alarms.NextSampleResolves | custom_components/geofence_journal/runtime/engine.py:147-161 | in the last two cases the next accepted sample cancels the transition or consults the re-check and acts on it |
| Leftovers.SuspensionLeavesExactly | custom_components/geofence_journal/runtime/engine.py:107-111 | after every run, a suspension leaves exactly those timers running whose handle the engine let go of while they were live, in this process, and that have not expired since; it lets go of a handle at a decision other than a suppression, at the announcement after a commit, and when it schedules once more |
| Leftovers.SuspensionLeaves | custom_components/geofence_journal/runtime/engine.py:107-111 | (supporting) in any state, suspension leaves a timer running if and only if there is a live one whose handle is not the held one |
| Leftovers.TimersOutliveSuspension | custom_components/geofence_journal/runtime/engine.py:222-264 | concrete runs: a sample reaches the deadline before the timer expires; whatever the re-check answers, or if it does not, the handle is dropped, not cancelled, and after a suspension the timer is still running |
| Leftovers.LeftoversAreHarmless | custom_components/geofence_journal/runtime/engine.py:203-207 | (supporting) such a timer, and its callback, leave the suspended engine and all that is stored as they are |
| Runtimes.LeftoverOperation | custom_components/geofence_journal/runtime/engine.py:203-207 | (supporting) at the object such a callback only leaves the queue |
| Alarms.CallbackDecides | custom_components/geofence_journal/runtime/engine.py:203-239 | (supporting) a callback of the pending generation that takes the lock at or after the deadline always decides |
| TransitionEngine.RuleTransitionEngine.Observe | custom_components/geofence_journal/runtime/engine.py:84-97 | the method's whole effect on memory, database, timers, notifications and supplies is the machine's, sample by sample |
| TransitionEngine.RuleTransitionEngine.AcceptLocked | custom_components/geofence_journal/runtime/engine.py:113-161 | the same for each branch of accepting a sample; nothing but this rule's row and new events changes |
| TransitionEngine.RuleTransitionEngine.BeginPendingLocked | custom_components/geofence_journal/runtime/engine.py:163-186 | the same for the start of a transition |
| TransitionEngine.RuleTransitionEngine.RestorePendingLocked | custom_components/geofence_journal/runtime/engine.py:188-201 | the same, through the recursion with the confirmation |
| TransitionEngine.RuleTransitionEngine.DeadlineCallback | custom_components/geofence_journal/runtime/engine.py:203-207 | the same for a callback, of any generation, to an engine that may have been suspended |
| TransitionEngine.RuleTransitionEngine.TimerExpires | custom_components/geofence_journal/ha_clock.py:52-62 | a timer, whether its handle is still kept or not, turns into a callback that waits for the lock; nothing else changes |
| TransitionEngine.RuleTransitionEngine.ConfirmLocked | custom_components/geofence_journal/runtime/engine.py:209-264 | the same for the confirmation, including the loser, whose memory becomes the stored row |
| TransitionEngine.RuleTransitionEngine.Suspend | custom_components/geofence_journal/runtime/engine.py:107-111 | the engine stops accepting, cancels its timer and keeps memory and row |
| TransitionEngine.RuleTransitionEngine.Deactivate | custom_components/geofence_journal/runtime/engine.py:99-105 | besides, memory and row are gone |
| TransitionEngine.RuleTransitionEngine.Recover | custom_components/geofence_journal/runtime/engine.py:60-82 | a new engine's recovery is the machine's start over the stored row; with nothing pending, memory and row are the stored row with each cooldown that is later than the reading, and without each that is not |
| Driving.RecoveredRow | custom_components/geofence_journal/runtime/engine.py:60-82 | the whole recovery over a stored row, pending or not, is: one reading, the stored row without the cooldowns that have ended by then as memory and row, and the pending transition resumed |
| Lifting.DriveIsRun | custom_components/geofence_journal/runtime/engine.py:188-264 | everything the lock holder does is a run of the rule's world with its timers: engine, stored part, timers, notifications and identifiers stay those of the object |
| Lifting.ObservedIsRun | custom_components/geofence_journal/runtime/engine.py:84-97 | the same for a sample and all that follows from it |
| Lifting.OperateIsRun | custom_components/geofence_journal/runtime/engine.py:99-111 | the same for callbacks, suspension and deactivation |
| Lifting.RecoveredIsRun | custom_components/geofence_journal/runtime/engine.py:60-82 | the same for the recovery of a new engine object, whose run is given |
| Lifting.DriveIsForward | custom_components/geofence_journal/runtime/engine.py:188-264 | if the clock object's readings do not run backward, neither does this run |
| Lifting.ObservedIsForward | custom_components/geofence_journal/runtime/engine.py:84-97 | the same for a sample |
| Lifting.OperateIsForward | custom_components/geofence_journal/runtime/engine.py:99-111 | the same for callbacks, suspension and deactivation |
| Lifting.RecoveredIsForward | custom_components/geofence_journal/runtime/engine.py:60-82 | the same for recovery |
| Lifting.EveryLifeIsARun | custom_components/geofence_journal/runtime/engine.py:60-264 | whatever happens to the engine objects of a rule, one after the other (calls of their methods, expiring timers, a process that dies anywhere within a call, replacement after suspension, purges and erasures in between): it is a run from the empty world, with the same timers; and the run's clock does not run backward if the clock object's readings do not |
| Lifting.ObjectsRemember | custom_components/geofence_journal/runtime/engine.py:188-239 | so after any such life the object in service never forgets a pending transition: its own scheduler or a waiting callback knows of it, or its last due confirmation has kept it |
| Lifting.ObjectsKeepStep | custom_components/geofence_journal/runtime/engine.py:113-186 | and its memory is its row, of the right shape |
| Lifting.ObjectsJournal | custom_components/geofence_journal/runtime/engine.py:240-255 | and, if its clock does not run backward, what it has stored is the greedy filter of the confirmed changes of presence, across every crash and replacement |
| Database.Connection.ConfirmTransition | custom_components/geofence_journal/storage/transitions.py:21-106 | a known key is reported with its event and nothing changes; otherwise event and row are both written or, when a constraint refuses one, neither |
| Database.Connection.SaveRuntimeState | custom_components/geofence_journal/storage/runtime_state.py:27-35 | the row is replaced, or a constraint refuses it and nothing changes |
| Database.Connection.AddManualEvent | custom_components/geofence_journal/storage/events.py:127-178 | missing journal, tracker and place are reported in this order; otherwise the database afterwards is the one before with one more event, whose every column is given |
| Database.Connection.ChangeStatus | custom_components/geofence_journal/storage/events.py:205-252 | an unknown event is an error, a repeated change is reported unchanged, any other change sets the event's status and time and adds exactly one revision, whose every column is given |
| Database.Connection.PurgeEvents | custom_components/geofence_journal/storage/maintenance.py:145-165 | a dry run changes nothing and reports as matched, and none as deleted, what a confirmed purge would remove; an unconfirmed request fails; a confirmed one purges, and matched and deleted are the numbers of events and of revisions that are gone |
| Database.PurgeReported | custom_components/geofence_journal/storage/maintenance.py:145-165 | (supporting) the reported counts are the sizes of the tables before minus those after a confirmed purge |
| Database.Connection.PurgeStatements | custom_components/geofence_journal/storage/maintenance.py:22-39 | each statement of a purge respects every foreign key when it runs, so none is refused |
| Database.Connection.ResetDatabase | custom_components/geofence_journal/storage/maintenance.py:202-230 | phrase and schema errors change nothing; on a consistent database the reset empties every table and reports the counts |
| Database.Connection.ResetStatements | custom_components/geofence_journal/storage/maintenance.py:202-230 | no statement is refused provided no event names an original event |
| Operations.DatabaseInvariant | custom_components/geofence_journal/storage/schema.py:64-130 | after any sequence of operations, among them saves of any age (those that a foreign key refuses change nothing), all foreign keys hold, transition keys are unique, and a row's last event is a retained event of its rule with that type and confirmation time |
| Operations.OneEventPerKey | custom_components/geofence_journal/storage/schema.py:127-130 | whatever engines share the database and whatever they try to write, there is at most one event for a rule, generation and deadline |
| Operations.StaleSaves | custom_components/geofence_journal/storage/runtime_state.py:27-35 | a state that once matched its row may be saved at any later time, whatever has been done to the database meanwhile: it still describes its last event, or that event is gone and the database refuses the save and stays as it is |
| Operations.AuditChain | custom_components/geofence_journal/storage/events.py:205-273 | after any such sequence each retained event's revisions lead without gap from its first state to its current one, and their number's parity is its status |
| Operations.RepeatedMutationIsIdle | custom_components/geofence_journal/storage/events.py:205-240 | (supporting) a repeated exclusion or restoration adds nothing |
| Effects.Confirmed | custom_components/geofence_journal/storage/transitions.py:21-106 | a confirmation adds one event, column by column, and replaces the rule's row, or, if its rule, generation and deadline are taken or a reference is missing, changes nothing |
| Effects.SavedRow | custom_components/geofence_journal/storage/runtime_state.py:27-35 | (supporting) a save replaces the row if its rule and its last event are there |
| Effects.Added | custom_components/geofence_journal/storage/events.py:127-178 | (supporting) an event is stored as given if and only if its identifier and its key are free and all it refers to is there |
| Effects.Changed | custom_components/geofence_journal/storage/events.py:205-252 | a status change sets status and time of one event and appends the revision with what they were and are, who changed them, when and why |
| Effects.EngineSees | custom_components/geofence_journal/storage/transitions.py:31-40 | (supporting) an engine sees its own row and, of the events, its own rule's generations and deadlines |
| Effects.PurgedTables | custom_components/geofence_journal/storage/maintenance.py:22-39 | (supporting) after a purge exactly the events before the instant, in the named journal if there is one, are gone; references to them are cleared in rows and events, and every other column is as before |
| Effects.PurgedRevisions | custom_components/geofence_journal/storage/maintenance.py:22-39 | (supporting) every revision of a remaining event is kept |
| Effects.ResetTables | custom_components/geofence_journal/storage/maintenance.py:202-230 | (supporting) a reset leaves the version and nothing else |
| Maintenance.PurgePartition | custom_components/geofence_journal/storage/maintenance.py:145-165 | exactly the events strictly before the instant in the chosen journal go, each with its whole trail; every other event and trail is unchanged |
| Maintenance.PurgeKeepsRows | custom_components/geofence_journal/storage/maintenance.py:30-33 | (supporting) runtime rows stay; one forgets its last event exactly when that event is gone |
| Maintenance.PurgeCounts | custom_components/geofence_journal/storage/maintenance.py:233-244 | the selected events and their revisions are as many as the true differences |
| Maintenance.SecondPurgeIsIdle | custom_components/geofence_journal/storage/maintenance.py:145-165 | a second purge finds nothing |
| Drain.DrainProtocol | custom_components/geofence_journal/manager.py:150-209 | however engines, callbacks, services and maintenance interleave: at most one engine accepts per rule, it remembers exactly the stored row and serves exactly the linkage on disk, and during maintenance none accepts, provided no storage error interrupts a rebuild that has built an engine |
| Drain.ExactlyOneEngine | custom_components/geofence_journal/manager.py:181-209 | in runs in which no storage error interrupts a rebuild, while the refresh lock is free each active linkage is served by exactly one accepting engine |
| Drain.SuspendedIsInert | custom_components/geofence_journal/runtime/engine.py:84-111 | whatever old timer or listener still reaches a suspended engine, it writes nothing, announces nothing and stays as it is |
| Drain.SuspendedForGood | custom_components/geofence_journal/manager.py:170-179 | and, as long as no storage error interrupts a rebuild that has built an engine, it never accepts or announces again |
| Drain.SwitchedOffIsNotServed | custom_components/geofence_journal/storage/resource_queries.py:42-58 | in every run in which no storage error interrupts a rebuild that has built an engine, an engine accepts only for a stored rule that is switched on together with its tracker, its place and its journal |
| Progress.MaintenanceCompletes | custom_components/geofence_journal/manager.py:150-168 | the protocol never gets stuck: from every serving manager whose engines are between two steps, any purge, reset or change of a resource can be carried through, with no accepting engine at that moment, and afterwards every active linkage of what it has left has exactly one accepting engine; resources, events and revisions are what the operation makes of them |
| Progress.RefreshCompletes | custom_components/geofence_journal/manager.py:122-139 | every refresh can be carried through: exactly the rows of the engines that no linkage names any more are deleted, events and revisions stay, and every active linkage has exactly one accepting engine |
| Progress.ServiceTakesEffect | custom_components/geofence_journal/manager.py:122-209 | (supporting) a manual event, an exclusion or a restoration takes effect in every phase and disturbs nothing else |
| Progress.InputTakesEffect | custom_components/geofence_journal/runtime/engine.py:84-97 | (supporting) an input from outside is one step of the engine it reaches, and the engine's row is what this step leaves |
| Interruptions.InterruptExactly | custom_components/geofence_journal/manager.py:163-166 | the order survives a storage error during a rebuild if and only if nothing had been built |
| Interruptions.InterruptedRebuildDoubles | custom_components/geofence_journal/manager.py:150-168 | otherwise the next drain overlooks the engine that was built and gives its rule a second accepting one |
| Interruptions.TwoEnginesHappen | custom_components/geofence_journal/manager.py:150-209 | a concrete run from a fresh installation: two rules are configured, a storage error ends the rebuild after the first, and the next drain leaves that rule with two accepting engines |
| Faults.ErrorsKeepExactlyOnce | custom_components/geofence_journal/runtime/engine.py:130-186 | even when storage errors roll back any of the engine's writes after it has changed its memory, event generations strictly increase within a lifetime, and row and memory are well shaped |
| Faults.MemoryExactly | custom_components/geofence_journal/runtime/engine.py:113-264 | after every run with such errors, an accepting engine's memory equals its row if and only if no save has failed since a write last went through or the engine started, or the last one to fail would have saved what is in the row anyway; otherwise its memory is what that save tried to store |
| Faults.FailureParts | custom_components/geofence_journal/runtime/engine.py:113-264 | a failing step parts memory and row if and only if it would have saved something that is not in the row already |
| Faults.WritesHeal | custom_components/geofence_journal/runtime/engine.py:130-264 | (supporting) the next write that goes through, and every restart, brings memory and row together again |
| Faults.MemoryRunsAhead | custom_components/geofence_journal/runtime/engine.py:126-141 | (supporting) it does happen: a rule's first sample is remembered although its save failed |
| Stranding.NoLostWakeUpButByErrors | custom_components/geofence_journal/runtime/engine.py:163-264 | under storage errors too, an accepting engine with a transition in mind has a live timer or a waiting callback of its generation, or its last due re-check gave no answer, or an error struck between its begin and its scheduling, or its append failed or was refused |
| Stranding.StrandingHappens | custom_components/geofence_journal/runtime/engine.py:163-186 | a concrete run: the save of a new transition fails, and the engine goes on accepting with a transition in mind for which nothing is scheduled |
| Stranding.NextSampleRepairs | custom_components/geofence_journal/runtime/engine.py:147-161 | the next accepted sample whose save goes through brings memory and row together; it cancels the transition or consults the re-check and acts on it if and only if it speaks for the confirmed presence or the deadline has come; otherwise still nothing is scheduled |
| Projections.ActionShown | custom_components/geofence_journal/manager.py:122-209 | each action of the installation is one step of a rule's world, or none |
| Projections.ForwardParts | custom_components/geofence_journal/manager.py:122-209 | if the installation's clock does not run backward, no rule sees it do so |
| Guarantees.EveryRuleRuns | custom_components/geofence_journal/manager.py:122-209 | as long as no storage error interrupts a rebuild that has built an engine, every rule's part of every run of the installation is a run of its world, and every retained automatic event is in its history |
| Guarantees.RetainedEventsDwelt | custom_components/geofence_journal/storage/transitions.py:41-106 | as long as no storage error interrupts a rebuild that has built an engine, every automatic event in the database, after any run of the installation, was confirmed at or after its deadline, and from its start to its deadline lie exactly the seconds that a definition given to its rule in that run asks for in the event's direction |
| Guarantees.RetainedEventsCooled | custom_components/geofence_journal/runtime/state.py:124-173 | as long as no storage error interrupts a rebuild that has built an engine, no rule is retired and the clock does not run backward: any two automatic events of a rule in the database carry different generations, and in one direction the later is at least the least cooldown ever given to the rule after the earlier |
| Management.GeofenceJournalManager.StopObservations | custom_components/geofence_journal/manager.py:170-179 | the listener is invalid, and every engine is suspended and keeps no handle; the database is untouched |
| Management.GeofenceJournalManager.BuildResources | custom_components/geofence_journal/manager.py:181-209 | afterwards each active linkage is served by one new live engine, and all of them together, with the clock and the identifiers, are what the machine makes of the tables and supplies at the start: rule by rule a recovery of what is stored, then tracker by tracker the present state; resources, revisions and existing events are unchanged |
| Management.GeofenceJournalManager.RefreshResources | custom_components/geofence_journal/manager.py:122-139 | old engines are suspended, those without a linkage lose their rows, and unless paused the active linkages are served by what a rebuild on the tables and with the supplies at the start comes to |
| Management.GeofenceJournalManager.RetireGone | custom_components/geofence_journal/manager.py:133-135 | the database afterwards is the one before without the rows of the engines that no linkage names, and nothing else is different |
| Management.GeofenceJournalManager.ListActiveResources | custom_components/geofence_journal/storage/resource_queries.py:42-58 | a stored rule is listed if and only if it, its tracker, its place and its journal are switched on; each once, with these three, in the order of the rules |
| Sites.ActiveExactly | custom_components/geofence_journal/storage/resource_queries.py:42-58 | (supporting) the same of the linkages that the installation serves |
| Listening.GeofenceTrackerListener.ProcessRuntime | custom_components/geofence_journal/listener.py:189-197 | the sample is evaluated against the engine's confirmed presence and then submitted |
| Listening.GeofenceTrackerListener.ProcessState | custom_components/geofence_journal/listener.py:180-187 | an active listener submits the state to every engine whose rule follows this tracker, in order: memory, stored part, timers, notifications and the shared clock and identifiers become what the machine says for the evaluation against each engine's own confirmed presence; all other engines have exactly what they had; a stopped listener changes nothing |
| Listening.GeofenceTrackerListener.Start | custom_components/geofence_journal/listener.py:148-159 | the listener becomes active, and tracker by tracker the engines have taken its present state, if there is one, with the clock and the identifiers as they come; a second start changes nothing |
| Management.GeofenceJournalManager.DeadlineFires | custom_components/geofence_journal/ha_clock.py:52-62 | a callback to an engine that the manager keeps does what the machine says for its own rule, with the shared clock and identifiers, and raises nothing; the other engines have exactly what they had, and every engine stays live with its memory equal to its row |
| Management.SQLiteManagementBackend.PurgeEvents | custom_components/geofence_journal/management_backend.py:195-213 | an unknown journal and a dry run do not disturb the engines; a purge suspends them all, and afterwards every active linkage is served again by what a rebuild on the purged tables, with the supplies at the start, comes to; the counts are the numbers of events and revisions that a confirmed purge takes away |
| Management.SQLiteManagementBackend.ResetDatabase | custom_components/geofence_journal/management_backend.py:220-229 | with the right phrase every table is empty, nothing is served, and the report says how many rows each table had; otherwise the phrase or the version is the error, resources and events are as they were and the linkages are served by what a rebuild comes to |
| Management.GeofenceJournalManager.AnewLeads | custom_components/geofence_journal/manager.py:150-209 | each engine of a rebuild continues the run that has led to the tables it was built on, and in clock order if the station's clock does not run backward |
| FleetLives.RebuiltLeads | custom_components/geofence_journal/manager.py:181-209 | the same for rebuilds as values: whatever the other engines use up of the clock and the identifiers, an engine's part is a run |
| FleetLives.ProcessedLeads | custom_components/geofence_journal/listener.py:180-197 | and so is its part of every tracker state that reaches the listener |
| FleetLives.FiredLives | custom_components/geofence_journal/runtime/engine.py:203-207 | and of every callback, its own or another engine's |
| FleetLives.ProcessedAt | custom_components/geofence_journal/listener.py:180-197 | each engine that follows the tracker takes the state exactly once, with what the engines before it have left of the shared supplies |
| FleetLives.EveryTrackerIsHandedOver | custom_components/geofence_journal/listener.py:148-159 | after a start every engine has taken the present state of its tracker exactly once, if there is one; the others are as they were |
| FleetLives.LedKeepsPromises | custom_components/geofence_journal/runtime/engine.py:113-264 | so an engine that the manager holds has its memory in its row, has a call to come for every pending transition (or its last due confirmation kept it), and has stored the greedy filter of the confirmed changes of presence |
| Geofence.EvaluatedExactly | custom_components/geofence_journal/listener.py:89-119 | a tracker state is evaluated if and only if its kind, time, state, coordinates and accuracy are usable, its place resolves and the distance is not negative |
| Geofence.EvaluatedPresence | custom_components/geofence_journal/geofence.py:73-108 | an evaluated state is inside if and only if the distance from its raw coordinates to the resolved center is at most the radius, or lies in the band and inside was confirmed; outside if and only if it is beyond the radius and at least radius and margin, or lies in the band and outside was confirmed; time, coordinates and accuracy are the raw ones |
| Geofence.ReCheckExactly | custom_components/geofence_journal/ha_confirmation.py:30-48 | the re-check answers if and only if the live state is usable, its place resolves and the distance is not negative, and then by the same two equivalences against the confirmed presence |
| Geofence.ReasonsExactly | custom_components/geofence_journal/listener.py:89-119 | the reason for ignoring a state is the first that holds, in the order of the checks |
| Geofence.PlaceResolved | custom_components/geofence_journal/location.py:132-163 | (supporting) a place of its own is taken as it is, one that follows a zone has the zone's center and radius, each if on the globe and with a positive radius |
| Fleets.HeardExactly | custom_components/geofence_journal/listener.py:189-197 | an engine is given an observation if and only if the state is usable and so on, located against the presence that this engine has itself confirmed |
| Fleets.ClearStateBegins | custom_components/geofence_journal/listener.py:189-197 | a usable state beyond the band or within the radius, on the other side of what an idle engine has confirmed, begins a transition that waits for the seconds of its direction |
| Fleets.ClearStateFirst | custom_components/geofence_journal/listener.py:189-197 | (supporting) the first such state is remembered as it is |
| Geofence.EarlyReasons | custom_components/geofence_journal/location.py:98-106 | (supporting) an unaware time is reported before an outdated one, and this before an unusable state, each exactly when it holds |
| Geofence.EvaluationMeans | custom_components/geofence_journal/geofence.py:73-108 | an evaluation differs from the confirmed presence only beyond the hysteresis band, and is never outdated |
| Geofence.BandKeeps | custom_components/geofence_journal/geofence.py:96-101 | (supporting) inside the band the confirmed presence stands; up to the radius it is inside whatever was confirmed |
| Flapping.AntiFlapping | custom_components/geofence_journal/ha_confirmation.py:30-48 | for a fixed place and margin the k flips of a lifetime alternate, each was re-checked beyond its side of the band, and the distances vary by at least k - 1 margins in all; samples may have been evaluated against anything |
| UtcText.TextShape | custom_components/geofence_journal/storage/records.py:21-25 | (supporting) only UTC instants have a text; it has 27 characters and ends in Z |
| UtcText.TextLayout | custom_components/geofence_journal/storage/records.py:21-25 | (supporting) year, month, day, hour, minute, second and microsecond, each of its width and zero-padded, with their separators in this order |
| UtcText.TextRoundTrip | custom_components/geofence_journal/storage/records.py:21-25 | in years 1 to 9999 a text is an instant's encoding if and only if it parses to that instant |
| UtcText.RenderOrder | custom_components/geofence_journal/storage/records.py:21-25 | two texts compare as their calendar fields do, from the most significant one |
| UtcText.FieldOrderIsTimeOrder | custom_components/geofence_journal/storage/records.py:21-25 | and the fields compare as the instants do |
| UtcText.TextOrderIsTimeOrder | custom_components/geofence_journal/storage/records.py:21-25 | texts compare as the instants do, and are equal only for equal instants |
| UtcText.CivilInstant | custom_components/geofence_journal/storage/records.py:21-25 | every instant from year 1 to 9999, counted in microseconds, has calendar fields that denote it |
| UtcText.SelectedByText | custom_components/geofence_journal/storage/maintenance.py:22-39 | comparing texts selects exactly the events before the instant |
| UtcText.RangeByText | custom_components/geofence_journal/export.py:216-236 | the export's filter on texts is the closed interval of instants |
| UtcText.SortedByText | custom_components/geofence_journal/export.py:228-228 | sorting by text is sorting by instant |
| RowCodec.RowRoundTrip | custom_components/geofence_journal/storage/runtime_state.py:38-76 | a written row reads back as the state it was written from if and only if coordinates and accuracy are in range |
| RowCodec.WrittenRowAccepted | custom_components/geofence_journal/storage/schema.py:91-119 | the schema's checks accept a written row if and only if, besides, the accuracy is below its limit and the pending target is a definite presence |
| RowCodec.AcceptedReadsBack | custom_components/geofence_journal/storage/schema.py:91-119 | a row that passes the schema's checks reads back if and only if its times are texts of instants, its coordinates come together and its generation is a count |
| RowCodec.ReadRowShows | custom_components/geofence_journal/storage/runtime_state.py:38-76 | a row that reads back, whatever wrote it, shows each field of the state in the field's own column; a missing generation is zero |
| RowCodec.EvaluatedIsMeasured | custom_components/geofence_journal/listener.py:89-119 | (supporting) every evaluated sample is on the globe and has no negative accuracy |
| RowCodec.RecoverySeesWhatWasSaved | custom_components/geofence_journal/storage/runtime_state.py:90-211 | after any run on evaluated samples the stored row reads back as the engine's state |
| Csv.ExportJournal | custom_components/geofence_journal/export.py:212-254 | an RFC 4180 reader of the whole output returns the header and one record per event, in order; record by record the j-th cell shows the j-th column, for all 17 columns with coordinates and for the first 14 without; the output begins with a byte order mark |
| Csv.CoordinatesWithheld | custom_components/geofence_journal/export.py:242-242 | without coordinates, events that differ in coordinates and accuracy only are exported alike |
| Csv.ShownExactly | custom_components/geofence_journal/export.py:261-269 | (supporting) a cell shows nothing for a null, a text as it is, behind an apostrophe if and only if its first character that is not blank begins a formula, and anything else as it is spelled |
| Csv.LineRead | custom_components/geofence_journal/export.py:257-258 | a line reads back as its cells |
| Csv.FeedCell | custom_components/geofence_journal/export.py:266-269 | any text, with commas, quotes and line breaks, reads back as one field |
| Csv.NeutralText | custom_components/geofence_journal/export.py:261-266 | (supporting) no text is read back as a formula, and it is changed by a leading apostrophe at most |
| Csv.NeutralCollision | custom_components/geofence_journal/export.py:261-266 | two different texts read back alike if and only if one is the other's neutralised form |

## Left out

- SQLite, its write-ahead log, its threads and its failures: a transaction is atomic, a constraint may refuse a statement, and any other storage error is a crash, or ends a rebuild between two engines. Only `Faults` and `Stranding` let an engine live on after an error; there the theorems that need memory and row to agree are not restated. A save that fails during a recovery is not modelled: the engine object is given up.
- Cancellation of a coroutine in the middle of an operation.
- Asynchrony inside the objects of `Listening` and `Management`: their methods run to the end; the interleavings of engines, listener, services and manager are those of `Sites`, which holds engines as values.
- Compaction, which changes no table; maintenance inside a pause scope is any sequence of purges, resets and upserts.
- Overflow of instants and of confirmation seconds beyond year 9999: instants are integers in microseconds, and the encodings require representable ones.
- Floating point: coordinates, accuracies and distances are reals, the distance is an arbitrary function, and not-a-number and infinity are unusable input.
- Identifiers are numbers drawn from a counter that never repeats; the program draws UUIDs. In a row they are spelled by any faithful naming.
- Geometry, names, uniqueness and validation of resources: a resource has a name and a switch; thresholds reach the evaluation as parameters, and what Home Assistant reports stays the same during one call of a manager or listener method. A rule's confirmation and cooldown seconds are fixed for one engine.
- Sites.ActiveResources: does not model the tracker's entity identifier, because only equality of trackers matters to dispatch.
- The state text of a tracker is readable or not; stripping and lower-casing it is not modelled.
- UtcText.Parse: accepts only the canonical layout, while the ISO parser of the program accepts other layouts too; stored texts are canonical.
- RowCodec.Loaded: rejects a negative generation, which the program would load; none is ever written.
- The optional absence of a runtime state in a confirmed transition, and injected faults: the engine uses neither.
- Clock readings of which nothing depends, and the monotonic clock: a scheduled call records how long it is to wait, but a timer may expire at any moment.
- The several-engine case keeps only uniqueness of events per key: two live engines of one rule may overwrite each other's row.
- The JSON text of an audit revision: a revision holds its two states as values.
- The query behind the export: its filter and its order are stated about instants (`UtcText.RangeByText`, `UtcText.SortedByText`), the rows themselves are given.
- How numbers are spelled in a CSV cell: the round trip holds for any spelling.
- Export files and their registry, settings, services, HTTP, entities, translations and schema bootstrap.
