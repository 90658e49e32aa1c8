/** The per-participant time book-keeping of the virtual time synchronisation:
    the step being executed, the step to be executed next, and the last step
    announced by every other synchronised participant. */
module TimeConfig {

  type Name = string

  /** A step announcement: when the step starts and how long it lasts (nanoseconds). */
  datatype NextSimTask = NextSimTask(timePoint: int, duration: int)

  datatype Config = Config(current: NextSimTask, next: NextSimTask, others: map<Name, NextSimTask>, hoppedOn: bool)

  const UNKNOWN := NextSimTask(-1, 0)
  const NANOSECONDS_MAX: int := 0x7FFF_FFFF_FFFF_FFFF

  function Advance(c: Config): Config
  {
    c.(current := c.next, next := c.next.(timePoint := c.next.timePoint + c.next.duration))
  }

  /** Another participant may still execute a step before our next one. */
  ghost predicate HasLower(c: Config)
  {
    exists q :: q in c.others && c.others[q].timePoint < c.next.timePoint
  }

  /** An announcement that could only have been made after the first step. */
  predicate IsPastFirstStep(t: NextSimTask)
  {
    t.timePoint > t.duration
  }

  /** We have not stepped yet, and somebody else is already past its first step. */
  ghost predicate SeesRunningSimulation(c: Config)
  {
    && c.current.timePoint == -1
    && exists q :: q in c.others && IsPastFirstStep(c.others[q])
  }

  /** `t` is the time at which a late joiner enters: the earliest announcement past a first step. */
  ghost predicate IsHopOnTime(others: map<Name, NextSimTask>, t: int)
  {
    && (forall q :: q in others && IsPastFirstStep(others[q]) ==> t <= others[q].timePoint)
    && (t == 0x7FFF_FFFF_FFFF_FFFF || exists q :: q in others && IsPastFirstStep(others[q]) && others[q].timePoint == t)
  }

  class TimeConfiguration {
    var current: NextSimTask
    var next: NextSimTask
    var others: map<Name, NextSimTask>
    var hoppedOn: bool

    ghost function Model(): Config
      reads this
    {
      Config(current, next, others, hoppedOn)
    }

    constructor ()
      ensures Model() == Config(NextSimTask(-1, 0), NextSimTask(0, 1_000_000), map[], false)
    {
      current, next, others, hoppedOn := UNKNOWN, NextSimTask(0, 1_000_000), map[], false;
    }

    /** A participant that is already known keeps its last announcement. */
    method AddSynchronizedParticipant(name: Name)
      modifies this
      ensures name in others && others.Keys == old(others.Keys) + {name}
      ensures others[name] == if name in old(others) then old(others)[name] else NextSimTask(-1, 0)
      ensures forall q :: q in old(others) ==> others[q] == old(others)[q]
      ensures Model() == old(Model()).(others := others)
    {
      if name in others {
        return;
      }
      others := others[name := UNKNOWN];
    }

    method RemoveSynchronizedParticipant(name: Name) returns (removed: bool)
      modifies this
      ensures removed <==> name in old(others)
      ensures Model() == old(Model()).(others := old(others) - {name})
    {
      removed := name in others;
      others := others - {name};
    }

    /** Announcements of unknown participants are dropped; a step back in time is
        only reported (`chronologyError`), the announcement is still taken over. */
    method OnReceiveNextSimStep(name: Name, task: NextSimTask) returns (chronologyError: bool)
      modifies this
      ensures name !in old(others) ==> Model() == old(Model()) && !chronologyError
      ensures name in old(others) ==>
                && Model() == old(Model()).(others := old(others)[name := task])
                && (chronologyError <==> task.timePoint < old(others)[name].timePoint)
    {
      if name !in others {
        return false;
      }
      chronologyError := task.timePoint < others[name].timePoint;
      others := others[name := task];
    }

    /** Throws for the participants it knows; the erasure that follows is reached only for
        the ones it does not know, so nobody is ever removed. */
    method SynchronizedParticipantRemoved(name: Name) returns (thrown: bool)
      modifies this
      ensures thrown <==> name in old(others)
      ensures Model() == old(Model())
    {
      if name in others {
        return true;
      }
      others := others - {name};
      thrown := false;
    }

    method SetStepDuration(duration: int)
      modifies this
      ensures Model() == old(Model()).(next := NextSimTask(old(next).timePoint, duration))
    {
      next := next.(duration := duration);
    }

    method AdvanceTimeStep()
      modifies this
      ensures Model() == Advance(old(Model()))
      ensures current == old(next) && others == old(others) && hoppedOn == old(hoppedOn)
      ensures next.timePoint == old(next.timePoint) + old(next.duration) && next.duration == old(next.duration)
    {
      current := next;
      next := next.(timePoint := current.timePoint + current.duration);
    }

    method OtherParticipantHasLowerTimepoint() returns (lower: bool)
      ensures lower <==> HasLower(Model())
    {
      var pending := others.Keys;
      while pending != {}
        invariant pending <= others.Keys
        invariant forall q :: q in others && q !in pending ==> others[q].timePoint >= next.timePoint
        decreases |pending|
      {
        var q :| q in pending;
        if next.timePoint > others[q].timePoint {
          return true;
        }
        pending := pending - {q};
      }
      lower := false;
    }

    /** The hop-on test of the first step. It answers yes exactly when the simulation is
        already running, or was found to be earlier, and then moves our first step to the
        earliest announcement of a participant past its own first step. */
    method IsHopOn() returns (hop: bool)
      modifies this
      ensures hop <==> SeesRunningSimulation(old(Model())) || (old(hoppedOn) && current.timePoint == -1)
      ensures !hop ==> Model() == old(Model())
      ensures hop ==> && Model() == old(Model()).(hoppedOn := true, next := old(next).(timePoint := next.timePoint))
                      && IsHopOnTime(others, next.timePoint)
    {
      if current.timePoint != -1 {
        return false;
      }
      var pending, minimal := others.Keys, NANOSECONDS_MAX;
      while pending != {}
        invariant pending <= others.Keys && others == old(others) && next == old(next) && current == old(current)
        invariant hoppedOn <==> old(hoppedOn) || exists q :: q in others && q !in pending && IsPastFirstStep(others[q])
        invariant forall q :: q in others && q !in pending && IsPastFirstStep(others[q]) ==>
                    minimal <= others[q].timePoint
        invariant minimal == NANOSECONDS_MAX
               || exists q :: q in others && IsPastFirstStep(others[q]) && others[q].timePoint == minimal
        decreases |pending|
      {
        var q :| q in pending;
        ghost var before := pending;
        pending := pending - {q};
        if IsPastFirstStep(others[q]) {
          hoppedOn := true;
          if others[q].timePoint < minimal {
            minimal := others[q].timePoint;
          }
        }
        assert forall r :: r in others && r !in pending <==> r == q || (r in others && r !in before);
      }
      if hoppedOn {
        next := next.(timePoint := minimal);
      }
      hop := hoppedOn;
    }
  }
}
