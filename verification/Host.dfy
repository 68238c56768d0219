/** The capabilities that an engine is given: a wall clock, a scheduler, fresh event
    identifiers, a re-check of the tracker, and an observer. */
module Host {
  import opened Wrappers
  import opened Models

  /** Any finite number of arbitrary readings, forward or backward; after them the clock stands
      still. Every execution that comes to an end reads the clock finitely often. */
  class Clock {
    var tape: seq<Time>
    var last: Time

    method UtcNow() returns (now: Time)
      modifies this
      ensures now == Reading(old(tape), old(last)) && last == now
      ensures tape == Rest(old(tape))
    {
      now := Reading(tape, last);
      tape, last := Rest(tape), now;
    }
  }

  function Reading(tape: seq<Time>, last: Time): Time
  {
    if tape == [] then last else tape[0]
  }

  function Rest<T>(tape: seq<T>): seq<T>
  {
    if tape == [] then [] else tape[1..]
  }

  /** Calls that are scheduled and neither cancelled nor expired, by handle, with their generation. */
  class Scheduler {
    var timers: map<nat, nat>
    var delays: map<nat, Time> // how long each call was to wait
    var next: nat

    constructor ()
      ensures timers == map[] && delays == map[] && next == 0
    {
      timers, delays, next := map[], map[], 0;
    }

    method Schedule(delay: Time, generation: nat) returns (handle: nat)
      requires delay > 0
      modifies this
      ensures handle == old(next) && next == old(next) + 1
      ensures timers == old(timers)[handle := generation] && delays == old(delays)[handle := delay]
    {
      handle := next;
      timers, delays, next := timers[handle := generation], delays[handle := delay], next + 1;
    }

    /** Time has passed: the call is due, and its callback waits for the engine's lock. */
    method Expire(handle: nat)
      modifies this`timers
      ensures timers == old(timers) - {handle}
    {
      timers := timers - {handle};
    }

    method Cancel(handle: nat)
      modifies this`timers
      ensures timers == old(timers) - {handle}
    {
      timers := timers - {handle};
    }
  }

  /** Identifiers that no one has drawn before. */
  class IdFactory {
    var next: Id

    method NextId() returns (id: Id)
      modifies this
      ensures id == old(next) && next == old(next) + 1
    {
      id := next;
      next := next + 1;
    }
  }

  /** What the re-checks of the live tracker will answer; nothing when it is unusable. */
  class Evaluator {
    var answers: seq<ReChecked>

    constructor (answers: seq<ReChecked>)
      ensures this.answers == answers
    {
      this.answers := answers;
    }

    method Evaluate(state: RuntimeState) returns (answer: Option<Presence>)
      modifies this
      ensures answer == Answer(old(answers), state) && answers == Rest(old(answers))
    {
      answer := Answer(answers, state);
      answers := Rest(answers);
    }
  }

  /** What a re-check would answer for each state; nothing when the live tracker is unusable. */
  type ReChecked = RuntimeState -> Option<Presence>

  function Answer(answers: seq<ReChecked>, state: RuntimeState): Option<Presence>
  {
    if answers == [] then None else answers[0](state)
  }

  class Observer {
    var notes: seq<Id>

    constructor ()
      ensures notes == []
    {
      notes := [];
    }

    method OnTransition(id: Id)
      modifies this
      ensures notes == old(notes) + [id]
    {
      notes := notes + [id];
    }
  }
}
