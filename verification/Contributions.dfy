/**
 * Who contributed since the last report (internal/domain/service/presence.go): the current set, the one
 * batch being emitted off the run loop, and its completion command.
 */
module Contributions {
  import opened Basics

  type Actor = nat
  type FlightId = nat

  /** A batch under way, what its emission returned once it has, and whether the run loop took that result. */
  datatype Flight = Flight(actors: set<Actor>, result: Option<bool>, taken: bool)

  datatype Action =
    | Changing(actor: Actor)
    | Ticking(id: FlightId)
    | Emitting(id: FlightId, ok: bool)
    | Completing(id: FlightId)
    | Finishing
    | Tearing(deleted: bool, settled: bool, reported: bool)

  /** The actors that changed the document in the course of a schedule. */
  function Recorded(schedule: seq<Action>): set<Actor> {
    set a | a in schedule && a.Changing? :: a.actor
  }

  lemma RecordedStep(schedule: seq<Action>, i: nat)
    requires i < |schedule|
    ensures Recorded(schedule[..i + 1]) ==
            Recorded(schedule[..i]) + if schedule[i].Changing? then {schedule[i].actor} else {}
  {
    assert schedule[..i + 1] == schedule[..i] + [schedule[i]];
  }

  class Window {
    const enabled: bool
    var contributors: set<Actor>
    var current: Option<FlightId>
    var flights: map<FlightId, Flight>
    var completions: seq<FlightId>
    var torn: bool

    // `owed`: the actors recorded since the last emission that reported them. `since`: those recorded
    // since the batch under way was detached. `asked`: how often each flight's emission was awaited.
    ghost var owed: set<Actor>
    ghost var since: set<Actor>

    /** What the batch under way still owes: nothing once its emission succeeded. */
    ghost function Pending(): set<Actor>
      reads this
    {
      if current.Some? && current.value in flights && flights[current.value].result != Some(true)
      then flights[current.value].actors else {}
    }

    /**
     * Nobody is lost and nobody is reported for nothing: the actors still owed a report are exactly
     * those in the current set and in an unsuccessful batch; and a queued completion never finds its
     * result missing.
     */
    ghost predicate Valid()
      reads this
    {
      && owed == contributors + Pending()
      && (current.Some? ==> current.value in flights && !flights[current.value].taken && since == contributors)
      && (forall i | 0 <= i < |completions| :: completions[i] in flights && flights[completions[i]].result.Some?)
    }

    constructor (enabled: bool)
      ensures Valid() && contributors == {} && current.None? && completions == [] && !torn && this.enabled == enabled
    {
      this.enabled := enabled;
      contributors, current, flights, completions, torn, owed, since := {}, None, map[], [], false, {}, {};
    }

    /** `recordContribution`: the one producer, and the one place the feature is switched off. */
    method Record(a: Actor)
      requires Valid()
      modifies `contributors, `owed, `since
      ensures Valid() && owed == if enabled then old(owed) + {a} else old(owed)
    {
      if enabled {
        contributors := contributors + {a};
        since := since + {a};
        owed := owed + {a};
      }
    }

    /** `detachContributors`. */
    method Detach() returns (batch: set<Actor>)
      modifies `contributors
      ensures batch == old(contributors) && contributors == {}
    {
      batch := contributors;
      contributors := {};
    }

    /** `startContributionFlush`: one batch at a time leaves the run loop; nobody changes hands unaccounted. */
    method Tick(id: FlightId) returns (started: bool)
      requires Valid() && id !in flights
      modifies `contributors, `current, `flights, `since
      ensures Valid() && owed == old(owed)
      ensures started == (old(current).None? && old(contributors) != {})
      ensures started ==> current == Some(id) && contributors == {} && Pending() == old(contributors)
      ensures !started ==> current == old(current) && contributors == old(contributors) && flights == old(flights)
    {
      if current.Some? {
        return false;
      }
      var batch := Detach();
      if batch == {} {
        return false;
      }
      flights := flights[id := Flight(batch, None, false)];
      current, since := Some(id), {};
      return true;
    }

    /** The emission returned; a report pays what the batch owed except to those who contributed again. */
    method Emitted(id: FlightId, ok: bool)
      requires Valid() && id in flights && flights[id].result.None?
      modifies `flights, `owed
      ensures Valid() && flights == old(flights)[id := old(flights)[id].(result := Some(ok))]
      ensures owed == if ok && current == Some(id) then old(owed) - (old(flights)[id].actors - since) else old(owed)
    {
      flights := flights[id := flights[id].(result := Some(ok))];
      if ok && current == Some(id) {
        owed := owed - (flights[id].actors - since);
      }
    }

    /** The completion command, sent once the result lies ready. */
    method Complete(id: FlightId)
      requires Valid() && id in flights && flights[id].result.Some?
      modifies `completions
      ensures Valid() && completions == old(completions) + [id]
    {
      completions := completions + [id];
    }

    /** The receive on `flight.done`: it never waits, because the result is there. */
    method Receive(id: FlightId) returns (ok: bool)
      requires id in flights && flights[id].result.Some? && !flights[id].taken
      modifies `flights
      ensures ok == old(flights)[id].result.value && flights == old(flights)[id := old(flights)[id].(taken := true)]
    {
      ok := flights[id].result.value;
      flights := flights[id := flights[id].(taken := true)];
    }

    /** `finishContributionFlush`: only the flight under way is finished; a failed batch returns to the current set. */
    method Finish()
      requires Valid() && completions != []
      modifies `contributors, `current, `flights, `completions
      ensures Valid() && owed == old(owed) && completions == old(completions)[1..]
      ensures old(current) != Some(old(completions)[0]) ==>
                contributors == old(contributors) && current == old(current) && flights == old(flights)
      ensures old(current) == Some(old(completions)[0]) ==> current.None? && contributors == old(owed)
    {
      var id := completions[0];
      completions := completions[1..];
      if current != Some(id) {
        return;
      }
      var ok := Receive(id);
      current := None;
      if !ok {
        contributors := contributors + flights[id].actors;
      }
    }

    /** `settleContributionFlight`: the teardown waits for the one result that is outstanding. */
    method Settle(ok: bool)
      requires Valid()
      modifies `contributors, `current, `flights, `owed
      ensures Valid() && current.None? && contributors == owed
      ensures old(current).None? || old(flights)[old(current).value].result.Some? ==> owed == old(owed)
      ensures old(current).Some? && old(flights)[old(current).value].result.None? ==>
                owed == if ok then old(contributors) else old(owed)
    {
      if current.None? {
        return;
      }
      var id := current.value;
      if flights[id].result.None? {
        Emitted(id, ok);
      }
      var reported := Receive(id);
      if !reported {
        contributors := contributors + flights[id].actors;
      }
      current := None;
    }

    /** `flushContributionNow`: the last window, kept when its emission fails. */
    method FlushNow(ok: bool)
      requires Valid() && current.None?
      modifies `contributors, `owed
      ensures Valid() && owed == if ok then {} else old(owed)
      ensures contributors == owed
    {
      var batch := Detach();
      if batch == {} {
        return;
      }
      if ok {
        owed := owed - batch;
      } else {
        contributors := contributors + batch;
      }
    }

    /** The end of a teardown: everything owed is offered for report once more, except for a deleted document. */
    method Teardown(deleted: bool, settled: bool, reported: bool)
      requires Valid() && !torn
      modifies `contributors, `current, `flights, `owed, `torn
      ensures Valid() && torn
      ensures deleted ==> owed == old(owed) && contributors == old(contributors)
      ensures !deleted && reported ==> owed == {}
      ensures !deleted && !reported ==> contributors == owed && current.None?
    {
      torn := true;
      if !deleted {
        Settle(settled);
        FlushNow(reported);
      }
    }

    /**
     * Any order of changes, ticks, emissions and completions up to a teardown: an actor is dropped from
     * what is owed only by an emission that reported it, or with a deleted document.
     */
    method Run(schedule: seq<Action>)
      requires Valid()
      modifies this
      ensures Valid()
      ensures enabled && !old(torn) && !torn && (forall a | a in schedule :: !a.Emitting? || !a.ok) ==>
                owed == old(owed) + Recorded(schedule)
    {
      for i := 0 to |schedule|
        invariant Valid()
        invariant enabled && !old(torn) && !torn && (forall a | a in schedule :: !a.Emitting? || !a.ok) ==>
                    owed == old(owed) + Recorded(schedule[..i])
        invariant old(torn) ==> torn
      {
        RecordedStep(schedule, i);
        var a := schedule[i];
        match a {
          case Changing(actor) => Record(actor);
          case Ticking(id) => if id !in flights && !torn { var _ := Tick(id); }
          case Emitting(id, ok) => if id in flights && flights[id].result.None? { Emitted(id, ok); }
          case Completing(id) => if id in flights && flights[id].result.Some? { Complete(id); }
          case Finishing => if completions != [] { Finish(); }
          case Tearing(deleted, settled, reported) => if !torn { Teardown(deleted, settled, reported); }
        }
      }
      assert schedule[..|schedule|] == schedule;
    }
  }

  /** Whoever is still owed a report is in the current set or in the one batch under way, never both reported and owed. */
  lemma OwedIsHeld(w: Window, a: Actor)
    requires w.Valid()
    ensures a in w.owed <==>
              || a in w.contributors
              || (w.current.Some? && w.flights[w.current.value].result != Some(true) && a in w.flights[w.current.value].actors)
  {}
}
