/** A user thread that completes asynchronous simulation steps in lockstep with the step
    handler, synchronised by the parity of a shared counter. The runtime begins the next
    step only after the previous one has been completed. */
module AsyncLockstep {

  datatype HandlerPc =
    | HIdle | HActivate | HDoneTest | HLock | HTest | HBlock | HAsleep | HRelock | HIncrement | HSetDone | HNotify
    | HUnlock

  datatype CompleterPc =
    | CLoop | CLock | CTest | CBlock | CAsleep | CRelock | CDoneTest | CCheck | CDecrement | CComplete | CIncrement
    | CNotify | CUnlock | CExit

  datatype Owner = Nobody | Handler | Completer
  datatype Who = ByHandler | ByCompleter

  /** `started` and `completed` count simulation steps, `log` records who incremented
      `cvCounter`; `last` says that the open step is the one at the expected end time. */
  datatype State = State(
    h: HandlerPc, c: CompleterPc, owner: Owner, cvCounter: int, numActive: int, done: bool, last: bool,
    timeReached: bool, started: nat, completed: nat, log: seq<Who>)

  datatype Event =
    | HandlerStep(last: bool)  // `last` is read only when a new simulation step begins
    | CompleterStep
    | SpuriousHandler
    | SpuriousCompleter
    | SetDone                  // the test body, after the simulation has ended

  function Start(): State
  {
    State(HIdle, CLoop, Nobody, 0, 0, false, false, false, 0, 0, [])
  }

  predicate Enabled(s: State, e: Event)
  {
    match e
    case HandlerStep(_) =>
      && !s.h.HAsleep?
      && (s.h.HIdle? ==> s.started == s.completed)
      && (s.h.HLock? || s.h.HRelock? ==> s.owner == Nobody)
    case CompleterStep =>
      && !s.c.CAsleep? && !s.c.CExit?
      && (s.c.CLock? || s.c.CRelock? ==> s.owner == Nobody)
    case SpuriousHandler => s.h.HAsleep?
    case SpuriousCompleter => s.c.CAsleep?
    case SetDone => true
  }

  function Handle(s: State, last: bool): State
  {
    match s.h
    case HIdle => s.(started := s.started + 1, last := last, timeReached := s.timeReached || last, h := HActivate)
    case HActivate => s.(numActive := s.numActive + 1, h := HDoneTest)
    case HDoneTest => s.(h := if s.done then HIdle else HLock)
    case HLock => s.(owner := Handler, h := HTest)
    case HTest => s.(h := if s.cvCounter % 2 == 0 then HIncrement else HBlock)
    case HBlock => s.(owner := Nobody, h := HAsleep)
    case HAsleep => s
    case HRelock => s.(owner := Handler, h := HTest)
    case HIncrement =>
      s.(cvCounter := s.cvCounter + 1, log := s.log + [ByHandler], h := if s.last then HSetDone else HNotify)
    case HSetDone => s.(done := true, h := HNotify)
    case HNotify => s.(c := if s.c.CAsleep? then CRelock else s.c, h := HUnlock)
    case HUnlock => s.(owner := Nobody, h := HIdle)
  }

  function Complete(s: State): State
  {
    match s.c
    case CLoop => s.(c := if !s.done && !s.timeReached then CLock else CExit)
    case CLock => s.(owner := Completer, c := CTest)
    case CTest => s.(c := if s.cvCounter % 2 == 1 then CDoneTest else CBlock)
    case CBlock => s.(owner := Nobody, c := CAsleep)
    case CAsleep => s
    case CRelock => s.(owner := Completer, c := CTest)
    case CDoneTest => if s.done then s.(owner := Nobody, c := CExit) else s.(c := CCheck)
    case CCheck =>
      if s.numActive == 1 then s.(c := CDecrement)
      else if s.numActive == 0 then s.(done := true, c := CDecrement)
      else s.(owner := Nobody, c := CExit)
    case CDecrement => s.(numActive := s.numActive - 1, c := CComplete)
    case CComplete => s.(completed := s.completed + 1, c := CIncrement)
    case CIncrement => s.(cvCounter := s.cvCounter + 1, log := s.log + [ByCompleter], c := CNotify)
    case CNotify => s.(h := if s.h.HAsleep? then HRelock else s.h, c := CUnlock)
    case CUnlock => s.(owner := Nobody, c := CLoop)
    case CExit => s
  }

  function Apply(s: State, e: Event): State
    requires Enabled(s, e)
  {
    match e
    case HandlerStep(last) => Handle(s, last)
    case CompleterStep => Complete(s)
    case SpuriousHandler => s.(h := HRelock)
    case SpuriousCompleter => s.(c := CRelock)
    case SetDone => s.(done := true)
  }

  predicate ValidRun(s: State, es: seq<Event>)
    decreases |es|
  {
    es == [] || (Enabled(s, es[0]) && ValidRun(Apply(s, es[0]), es[1..]))
  }

  function Exec(s: State, es: seq<Event>): State
    requires ValidRun(s, es)
    decreases |es|
  {
    if es == [] then s else Exec(Apply(s, es[0]), es[1..])
  }

  // ------------------------------------------------------------------ invariant

  predicate HandlerOwns(h: HandlerPc)
  {
    h.HTest? || h.HBlock? || h.HIncrement? || h.HSetDone? || h.HNotify? || h.HUnlock?
  }

  /** The completer has passed its wait and has not completed the step yet. */
  predicate Serving(c: CompleterPc) { c.CDoneTest? || c.CCheck? || c.CDecrement? || c.CComplete? }

  predicate CompleterOwns(c: CompleterPc)
  {
    Serving(c) || c.CTest? || c.CBlock? || c.CIncrement? || c.CNotify? || c.CUnlock?
  }

  predicate Entering(h: HandlerPc) { h.HActivate? || h.HDoneTest? || h.HLock? || h.HTest? || h.HIncrement? }

  ghost predicate Control(s: State)
  {
    var odd := s.cvCounter % 2 == 1;
    && (s.owner == Handler <==> HandlerOwns(s.h)) && (s.owner == Completer <==> CompleterOwns(s.c))
    && (s.started == s.completed || s.started == s.completed + 1)
    && (!s.h.HIdle? ==> s.started == s.completed + 1)
    // the handler finds the counter even, so it never blocks
    && !s.h.HBlock? && !s.h.HAsleep? && !s.h.HRelock?
    && (odd ==>
          || Serving(s.c) || s.c.CIncrement?
          || (s.started == s.completed + 1 && !Entering(s.h)))
    && (s.h.HSetDone? || s.h.HNotify? || s.h.HUnlock? ==> odd)
    && (s.h.HNotify? && s.last ==> s.done)
    && (Serving(s.c) ==> odd && s.h.HIdle? && s.started == s.completed + 1)
    && (s.c.CIncrement? ==> odd)
    && (s.c.CNotify? || s.c.CUnlock? ==> !odd)
    && (s.c.CBlock? ==> !odd)
    && (s.c.CExit? ==> s.done || s.timeReached)
    && (s.c.CAsleep? && odd ==> s.h.HSetDone? || s.h.HNotify?)
    && (s.h.HIdle? && s.started == s.completed + 1 && (!odd || s.c.CIncrement?) ==> s.done)
    && s.numActive == s.started - s.completed - (if s.h.HActivate? then 1 else 0) - (if s.c.CComplete? then 1 else 0)
  }

  ghost predicate Alternates(log: seq<Who>)
  {
    forall i :: 0 <= i < |log| ==> (log[i] == ByHandler <==> i % 2 == 0)
  }

  ghost predicate Inv(s: State)
  {
    Control(s) && s.cvCounter == |s.log| && Alternates(s.log)
  }

  lemma ControlOfHandler(s: State, last: bool)
    requires Control(s) && Enabled(s, HandlerStep(last))
    ensures Control(Handle(s, last))
    ensures s.h.HIncrement? ==> s.cvCounter % 2 == 0
  {
  }

  lemma ControlServing(s: State)
    requires Control(s) && (Serving(s.c) || s.c.CIncrement? || s.c.CNotify?)
    ensures Control(Complete(s))
    ensures s.c.CIncrement? ==> s.cvCounter % 2 == 1
  {
  }

  lemma ControlLocked(s: State)
    requires Control(s) && (s.c.CTest? || s.c.CBlock? || s.c.CUnlock?)
    ensures Control(Complete(s))
  {
  }

  lemma ControlUnlocked(s: State)
    requires Control(s) && Enabled(s, CompleterStep) && (s.c.CLoop? || s.c.CLock? || s.c.CRelock?)
    ensures Control(Complete(s))
  {
  }

  lemma PreserveHandler(s: State, last: bool)
    requires Inv(s) && Enabled(s, HandlerStep(last))
    ensures Inv(Handle(s, last))
  {
    ControlOfHandler(s, last);
  }

  lemma PreserveCompleter(s: State)
    requires Inv(s) && Enabled(s, CompleterStep)
    ensures Inv(Complete(s))
  {
    if Serving(s.c) || s.c.CIncrement? || s.c.CNotify? {
      ControlServing(s);
      assert !s.c.CIncrement? ==> Complete(s).log == s.log && Complete(s).cvCounter == s.cvCounter;
    } else if s.c.CTest? || s.c.CBlock? || s.c.CUnlock? {
      ControlLocked(s);
    } else {
      ControlUnlocked(s);
    }
  }

  lemma Preserve(s: State, e: Event)
    requires Inv(s) && Enabled(s, e)
    ensures Inv(Apply(s, e))
  {
    match e
    case HandlerStep(last) => PreserveHandler(s, last);
    case CompleterStep => PreserveCompleter(s);
    case _ =>
  }

  lemma {:induction false} RunInv(s: State, es: seq<Event>)
    requires Inv(s) && ValidRun(s, es)
    ensures Inv(Exec(s, es))
    decreases |es|
  {
    if es != [] {
      Preserve(s, es[0]);
      RunInv(Apply(s, es[0]), es[1..]);
    }
  }

  // ------------------------------------------------------------------- theorems

  /** The increments strictly alternate, starting with the handler. */
  lemma IncrementsAlternate(es: seq<Event>)
    requires ValidRun(Start(), es)
    ensures var s := Exec(Start(), es);
            s.cvCounter == |s.log| && Alternates(s.log)
  {
    RunInv(Start(), es);
  }

  /** At most one step is active; it is active whenever the completer has passed its wait,
      so the completer never reports a wrong number of active steps. */
  lemma OneActiveStep(es: seq<Event>)
    requires ValidRun(Start(), es)
    ensures var s := Exec(Start(), es);
            && 0 <= s.numActive <= 1
            && (s.c.CDoneTest? || s.c.CCheck? || s.c.CDecrement? ==> s.numActive == 1)
  {
    RunInv(Start(), es);
  }

  /** The handler's wait never blocks: when it holds the mutex, the counter is even. */
  lemma HandlerNeverBlocks(es: seq<Event>)
    requires ValidRun(Start(), es)
    ensures var s := Exec(Start(), es);
            && !s.h.HBlock? && !s.h.HAsleep?
            && (s.h.HTest? ==> s.cvCounter % 2 == 0)
  {
    RunInv(Start(), es);
  }

  /** An open step before the end time is never stuck, even without spurious wake-ups. */
  lemma OpenStepIsServed(es: seq<Event>)
    requires ValidRun(Start(), es) && IsOpen(Exec(Start(), es))
    ensures var s := Exec(Start(), es);
            (!s.h.HIdle? && Enabled(s, HandlerStep(false))) || Enabled(s, CompleterStep)
  {
    RunInv(Start(), es);
  }

  // ------------------------------------------------------------------ counting the steps

  /** The simulation steps begun in a run: by an idle handler. */
  function StepsBegun(s: State, es: seq<Event>): nat
    requires ValidRun(s, es)
    decreases |es|
  {
    if es == [] then 0
    else StepsBegun(Apply(s, es[0]), es[1..]) + if s.h.HIdle? && es[0].HandlerStep? then 1 else 0
  }

  predicate BeforeIncrement(h: HandlerPc)
  {
    !h.HIdle? && !h.HSetDone? && !h.HNotify? && !h.HUnlock?
  }

  function Bit(b: bool): nat
  {
    if b then 1 else 0
  }

  /** One increment for every begun step and one for every completed one, as long as `done` is
      not set. */
  predicate Tally(s: State)
  {
    s.done || s.cvCounter == s.started + s.completed - Bit(BeforeIncrement(s.h)) - Bit(s.c.CIncrement?)
  }

  lemma TallyHandler(s: State, last: bool)
    requires Control(s) && Tally(s) && Enabled(s, HandlerStep(last))
    ensures Tally(Handle(s, last)) && Handle(s, last).started == s.started + if s.h.HIdle? then 1 else 0
  {
  }

  lemma TallyCompleter(s: State)
    requires Control(s) && Tally(s) && Enabled(s, CompleterStep)
    ensures Tally(Complete(s)) && Complete(s).started == s.started
  {
  }

  lemma TallyEvent(s: State, e: Event)
    requires Control(s) && Tally(s) && Enabled(s, e)
    ensures Tally(Apply(s, e))
    ensures Apply(s, e).started == s.started + if s.h.HIdle? && e.HandlerStep? then 1 else 0
  {
    match e
    case HandlerStep(last) => TallyHandler(s, last);
    case CompleterStep => TallyCompleter(s);
    case _ =>
  }

  lemma {:induction false} TallyRun(s: State, es: seq<Event>)
    requires Inv(s) && Tally(s) && ValidRun(s, es)
    ensures Tally(Exec(s, es)) && Exec(s, es).started == s.started + StepsBegun(s, es)
    decreases |es|
  {
    if es != [] {
      TallyEvent(s, es[0]);
      Preserve(s, es[0]);
      TallyRun(Apply(s, es[0]), es[1..]);
    }
  }

  /** In every run each step that the runtime begins is counted, and until `done` is set the
      counter has been incremented once for each begun step, by the handler, and once for each
      completed one, by the completer. */
  lemma IncrementsAreCounted(es: seq<Event>)
    requires ValidRun(Start(), es)
    ensures var s := Exec(Start(), es);
            && s.started == StepsBegun(Start(), es)
            && (!s.done && s.h.HIdle? && !s.c.CIncrement? ==> |s.log| == s.started + s.completed)
  {
    CountedFrom(Start(), es);
  }

  lemma CountedFrom(s: State, es: seq<Event>)
    requires Inv(s) && Tally(s) && s.started == 0 && ValidRun(s, es)
    ensures var t := Exec(s, es);
            && t.started == StepsBegun(s, es)
            && (!t.done && t.h.HIdle? && !t.c.CIncrement? ==> |t.log| == t.started + t.completed)
  {
    RunInv(s, es);
    TallyRun(s, es);
    TallyMeans(Exec(s, es));
  }

  lemma TallyMeans(s: State)
    requires Inv(s) && Tally(s)
    ensures !s.done && s.h.HIdle? && !s.c.CIncrement? ==> |s.log| == s.started + s.completed
  {
  }

  // --------------------------------------------------------- how long a step stays open

  /** A step is open and the end has not been reached. */
  predicate IsOpen(s: State)
  {
    s.started == s.completed + 1 && !s.done && !s.timeReached
  }

  function HandlerRank(h: HandlerPc): nat
  {
    match h
    case HActivate => 15 case HDoneTest => 14 case HLock => 13 case HTest => 12 case HIncrement => 11
    case HNotify => 8 case HUnlock => 1 case _ => 0
  }

  /** What is left for the completer before the handler has handed the step over, ... */
  function WaitingRank(c: CompleterPc): nat
  {
    match c
    case CIncrement => 8 case CNotify => 7 case CUnlock => 6 case CLoop => 5 case CLock => 4 case CRelock => 4
    case CTest => 3 case CBlock => 2 case CAsleep => 1 case _ => 0
  }

  /** ... and after that. */
  function ServingRank(c: CompleterPc): nat
  {
    match c
    case CLoop => 7 case CLock => 6 case CRelock => 6 case CTest => 5 case CDoneTest => 4 case CCheck => 3
    case CDecrement => 2 case CComplete => 1 case _ => 0
  }

  function Remaining(s: State): nat
  {
    HandlerRank(s.h)
    + if s.cvCounter % 2 == 0 || s.c.CIncrement? then WaitingRank(s.c) else ServingRank(s.c)
  }

  predicate IsSpurious(e: Event)
  {
    e.SpuriousHandler? || e.SpuriousCompleter?
  }

  function SpuriousCount(es: seq<Event>): nat
  {
    if es == [] then 0 else (if IsSpurious(es[0]) then 1 else 0) + SpuriousCount(es[1..])
  }

  lemma HandlerMoveCounts(s: State, last: bool)
    requires Control(s) && IsOpen(s) && Enabled(s, HandlerStep(last))
    ensures IsOpen(Handle(s, last)) ==> Remaining(Handle(s, last)) < Remaining(s)
  {
  }

  lemma CompleterMoveCounts(s: State)
    requires Control(s) && IsOpen(s) && Enabled(s, CompleterStep)
    ensures IsOpen(Complete(s)) ==> Remaining(Complete(s)) < Remaining(s)
  {
  }

  lemma MoveCounts(s: State, e: Event)
    requires Control(s) && IsOpen(s) && Enabled(s, e) && IsOpen(Apply(s, e))
    ensures Remaining(Apply(s, e)) <= if IsSpurious(e) then Remaining(s) + 6 else Remaining(s) - 1
  {
    match e
    case HandlerStep(last) => HandlerMoveCounts(s, last);
    case CompleterStep => CompleterMoveCounts(s);
    case _ =>
  }

  lemma {:induction false} ServedWithin(s: State, es: seq<Event>)
    requires Inv(s) && ValidRun(s, es) && |es| > Remaining(s) + 7 * SpuriousCount(es)
    ensures exists k :: 0 <= k <= |es| && ValidRun(s, es[..k]) && !IsOpen(Exec(s, es[..k]))
    decreases |es|
  {
    if !IsOpen(s) {
      assert es[..0] == [] && !IsOpen(Exec(s, es[..0]));
    } else {
      var s', rest := Apply(s, es[0]), es[1..];
      assert rest[..0] == [];
      Preserve(s, es[0]);
      if IsOpen(s') {
        MoveCounts(s, es[0]);
        ServedWithin(s', rest);
      } else {
        assert ValidRun(s', rest[..0]) && !IsOpen(Exec(s', rest[..0]));
      }
      var k :| 0 <= k <= |rest| && ValidRun(s', rest[..k]) && !IsOpen(Exec(s', rest[..k]));
      assert es[..k + 1][1..] == rest[..k];
      assert ValidRun(s, es[..k + 1]) && Exec(s, es[..k + 1]) == Exec(s', rest[..k]);
    }
  }

  /** From any reachable point, an open step is completed, or the end is reached, within 24
      events and seven more per spurious wake-up, however they are interleaved. */
  lemma OpenStepIsServedWithin(es: seq<Event>, more: seq<Event>)
    requires ValidRun(Start(), es) && ValidRun(Exec(Start(), es), more)
    requires |more| >= 24 + 7 * SpuriousCount(more)
    ensures var s := Exec(Start(), es);
            exists k :: 0 <= k <= |more| && ValidRun(s, more[..k]) && !IsOpen(Exec(s, more[..k]))
  {
    RunInv(Start(), es);
    ServedWithin(Exec(Start(), es), more);
  }

  // ------------------------------------------------------------------- the completer ends

  /** The last handler step has notified; the completer is on its way out. */
  predicate Leaving(s: State)
  {
    && s.done && s.cvCounter % 2 == 1 && (s.owner == Handler ==> s.h.HUnlock?)
    && (s.h.HUnlock? || s.h.HIdle?) && s.started == s.completed + 1
    && (s.c.CLoop? || s.c.CLock? || s.c.CRelock? || s.c.CTest? || s.c.CDoneTest? || s.c.CExit?)
  }

  function LeavingRank(c: CompleterPc): nat
  {
    match c
    case CLock => 3 case CRelock => 3 case CTest => 2 case CDoneTest => 1 case CLoop => 1 case _ => 0
  }

  function CompleterSteps(es: seq<Event>): nat
  {
    if es == [] then 0 else (if es[0].CompleterStep? then 1 else 0) + CompleterSteps(es[1..])
  }

  lemma {:induction false} KeepsLeaving(s: State, es: seq<Event>)
    requires Leaving(s) && ValidRun(s, es)
    ensures Leaving(Exec(s, es)) && LeavingRank(Exec(s, es).c) + CompleterSteps(es) <= LeavingRank(s.c)
    decreases |es|
  {
    if es != [] {
      KeepsLeaving(Apply(s, es[0]), es[1..]);
    }
  }

  /** Once the handler of the last step has notified, the completer never sleeps or blocks
      again in any continuation, and has left its loop after at most three steps of its own:
      it can always make one when the mutex is free. So the final join returns. */
  lemma CompleterLeaves(es: seq<Event>, more: seq<Event>)
    requires ValidRun(Start(), es) && Exec(Start(), es).h.HNotify? && Exec(Start(), es).last
    requires ValidRun(Handle(Exec(Start(), es), false), more)
    ensures var s := Exec(Handle(Exec(Start(), es), false), more);
            && !s.c.CAsleep? && !s.c.CBlock? && CompleterSteps(more) <= 3
            && (s.c.CExit? || Enabled(s, CompleterStep) || s.h.HUnlock?)
            && (CompleterSteps(more) == 3 ==> s.c.CExit?)
  {
    RunInv(Start(), es);
    LastNotification(Exec(Start(), es));
    KeepsLeaving(Handle(Exec(Start(), es), false), more);
    RunInv(Handle(Exec(Start(), es), false), more);
  }

  lemma LastNotification(s: State)
    requires Inv(s) && s.h.HNotify? && s.last
    ensures Leaving(Handle(s, false)) && Inv(Handle(s, false))
  {
    PreserveHandler(s, false);
  }
}

/** Asynchronous steps completed through a mailbox: the step handler raises
    `needsComplete`, a completion thread takes it with a timed wait. A logical clock that
    advances with every reading stands for the steady clock. */
module AsyncMailbox {

  datatype HandlerPc = HIdle | HLock | HSet | HUnlock | HNotify
  datatype CompleterPc =
    | CLoop | CLock | CTest | CBlock | CAsleep | CRelock | CTimedOut | CTake | CStamp | CComplete | CUnlock | CExit

  datatype Owner = Nobody | Handler | Completer

  datatype State = State(
    h: HandlerPc, c: CompleterPc, owner: Owner, needsComplete: bool, running: bool, clock: nat, completed: nat,
    stepStarted: seq<nat>, stepCompleted: seq<nat>)

  datatype Event =
    | HandlerStep
    | CompleterStep
    | Spurious
    | Timeout
    | StopHandler

  function Start(): State
  {
    State(HIdle, CLoop, Nobody, false, true, 0, 0, [], [])
  }

  predicate Enabled(s: State, e: Event)
  {
    match e
    case HandlerStep =>
      && (s.h.HIdle? ==> |s.stepStarted| == s.completed)
      && (s.h.HLock? ==> s.owner == Nobody)
    case CompleterStep =>
      && !s.c.CAsleep? && !s.c.CExit?
      && (s.c.CLock? || s.c.CRelock? || s.c.CTimedOut? ==> s.owner == Nobody)
    case Spurious => s.c.CAsleep?
    case Timeout => s.c.CAsleep?
    case StopHandler => true
  }

  function Handle(s: State): State
  {
    match s.h
    case HIdle => s.(stepStarted := s.stepStarted + [s.clock], clock := s.clock + 1, h := HLock)
    case HLock => s.(owner := Handler, h := HSet)
    case HSet => s.(needsComplete := true, h := HUnlock)
    case HUnlock => s.(owner := Nobody, h := HNotify)
    case HNotify => s.(c := if s.c.CAsleep? then CRelock else s.c, h := HIdle)
  }

  function Complete(s: State): State
  {
    match s.c
    case CLoop => s.(c := if s.running then CLock else CExit)
    case CLock => s.(owner := Completer, c := CTest)
    case CTest => s.(c := if s.needsComplete then CTake else CBlock)
    case CBlock => s.(owner := Nobody, c := CAsleep)
    case CAsleep => s
    case CRelock => s.(owner := Completer, c := CTest)
    case CTimedOut => s.(owner := Completer, c := CTake)
    case CTake => if s.needsComplete then s.(needsComplete := false, c := CStamp) else s.(c := CUnlock)
    case CStamp => s.(stepCompleted := s.stepCompleted + [s.clock], clock := s.clock + 1, c := CComplete)
    case CComplete => s.(completed := s.completed + 1, c := CUnlock)
    case CUnlock => s.(owner := Nobody, c := CLoop)
    case CExit => s
  }

  function Apply(s: State, e: Event): State
    requires Enabled(s, e)
  {
    match e
    case HandlerStep => Handle(s)
    case CompleterStep => Complete(s)
    case Spurious => s.(c := CRelock)
    case Timeout => s.(c := CTimedOut)
    case StopHandler => s.(running := false)
  }

  predicate ValidRun(s: State, es: seq<Event>)
    decreases |es|
  {
    es == [] || (Enabled(s, es[0]) && ValidRun(Apply(s, es[0]), es[1..]))
  }

  function Exec(s: State, es: seq<Event>): State
    requires ValidRun(s, es)
    decreases |es|
  {
    if es == [] then s else Exec(Apply(s, es[0]), es[1..])
  }

  predicate CompleterOwns(c: CompleterPc)
  {
    c.CTest? || c.CBlock? || c.CTake? || c.CStamp? || c.CComplete? || c.CUnlock?
  }

  /** Start i, completion i, start i+1, as far as there are stamps. */
  ghost predicate Ordered(started: seq<nat>, completed: seq<nat>)
  {
    && (forall i :: 0 <= i < |completed| && i < |started| ==> started[i] < completed[i])
    && (forall i :: 0 <= i < |completed| && i + 1 < |started| ==> completed[i] < started[i + 1])
  }

  ghost predicate Interleaved(started: seq<nat>, completed: seq<nat>)
  {
    (|started| == |completed| || |started| == |completed| + 1) && Ordered(started, completed)
  }

  ghost predicate Before(times: seq<nat>, now: nat)
  {
    forall i :: 0 <= i < |times| ==> times[i] < now
  }

  ghost predicate Inv(s: State)
  {
    && (s.owner == Handler <==> s.h.HSet? || s.h.HUnlock?) && (s.owner == Completer <==> CompleterOwns(s.c))
    && Interleaved(s.stepStarted, s.stepCompleted)
    && Before(s.stepStarted, s.clock) && Before(s.stepCompleted, s.clock)
    && |s.stepCompleted| == s.completed + (if s.c.CComplete? then 1 else 0)
    // a step that is not yet completed is in the handler, in the mailbox or being taken
    && (s.h.HLock? || s.h.HSet? ==>
          |s.stepStarted| == |s.stepCompleted| + 1 && !s.needsComplete && !s.c.CStamp? && !s.c.CComplete?)
    && (s.needsComplete ==> |s.stepStarted| == |s.stepCompleted| + 1 && !s.c.CStamp? && !s.c.CComplete?)
    && (s.c.CStamp? ==> |s.stepStarted| == |s.stepCompleted| + 1)
    && (s.c.CComplete? ==> |s.stepStarted| == |s.stepCompleted|)
    && (s.c.CBlock? ==> !s.needsComplete)
    && (s.c.CAsleep? && s.needsComplete ==> s.h.HUnlock? || s.h.HNotify?)
    && (s.c.CExit? ==> !s.running)
    && (|s.stepStarted| == |s.stepCompleted| + 1 ==> s.h.HLock? || s.h.HSet? || s.needsComplete || s.c.CStamp?)
  }

  lemma PreserveHandler(s: State)
    requires Inv(s) && Enabled(s, HandlerStep)
    ensures Inv(Handle(s))
  {
  }

  lemma PreserveStamp(s: State)
    requires Inv(s) && s.c.CStamp?
    ensures Inv(Complete(s))
  {
  }

  lemma PreserveCompleter(s: State)
    requires Inv(s) && Enabled(s, CompleterStep)
    ensures Inv(Complete(s))
  {
    if s.c.CStamp? {
      PreserveStamp(s);
    } else {
      assert Complete(s).stepStarted == s.stepStarted && Complete(s).stepCompleted == s.stepCompleted;
    }
  }

  lemma {:induction false} RunInv(s: State, es: seq<Event>)
    requires Inv(s) && ValidRun(s, es)
    ensures Inv(Exec(s, es))
    decreases |es|
  {
    if es != [] {
      Preserve(s, es[0]);
      RunInv(Apply(s, es[0]), es[1..]);
    }
  }

  /** In every interleaving start i precedes completion i, which precedes start i+1. */
  lemma StartsAndCompletionsInterleave(es: seq<Event>)
    requires ValidRun(Start(), es)
    ensures var s := Exec(Start(), es);
            && Interleaved(s.stepStarted, s.stepCompleted)
            && (s.needsComplete ==> |s.stepStarted| == |s.stepCompleted| + 1)
  {
    RunInv(Start(), es);
  }

  /** The final check of a participant's data. */
  method AssertValid(running: bool, needsComplete: bool, started: seq<nat>, completed: seq<nat>) returns (ok: bool)
    ensures ok <==> !running && !needsComplete && Ordered(started, completed)
  {
    if running || needsComplete {
      return false;
    }
    ok := true;
    var i := 0;
    while ok && i < |started| && i < |completed|
      invariant 0 <= i <= |started| && i <= |completed|
      invariant ok ==> forall k :: 0 <= k < i ==>
                  started[k] < completed[k] && (k + 1 < |started| ==> completed[k] < started[k + 1])
      invariant !ok ==>
                  i > 0 && !(started[i - 1] < completed[i - 1] && (i < |started| ==> completed[i - 1] < started[i]))
    {
      ok := started[i] < completed[i] && (i + 1 < |started| ==> completed[i] < started[i + 1]);
      i := i + 1;
    }
  }

  /** A started step is never forgotten: it is on its way into the mailbox, in it, or being
      completed; and while the thread sleeps on a full mailbox, it is owed a notification. */
  lemma NoStepIsForgotten(es: seq<Event>)
    requires ValidRun(Start(), es)
    requires var s := Exec(Start(), es); |s.stepStarted| == |s.stepCompleted| + 1
    ensures var s := Exec(Start(), es);
            && (s.h.HLock? || s.h.HSet? || s.needsComplete || s.c.CStamp?)
            && (s.running ==> Enabled(s, CompleterStep) || (!s.h.HIdle? && Enabled(s, HandlerStep)))
  {
    RunInv(Start(), es);
  }

  // ------------------------------------------------------ every step is begun and completed

  function StepsBegun(s: State, es: seq<Event>): nat
    requires ValidRun(s, es)
    decreases |es|
  {
    if es == [] then 0
    else StepsBegun(Apply(s, es[0]), es[1..]) + if s.h.HIdle? && es[0].HandlerStep? then 1 else 0
  }

  /** Every step that the runtime begins is stamped. */
  lemma {:induction false} StepsAreStamped(s: State, es: seq<Event>)
    requires ValidRun(s, es)
    ensures |Exec(s, es).stepStarted| == |s.stepStarted| + StepsBegun(s, es)
    decreases |es|
  {
    if es != [] {
      StepsAreStamped(Apply(s, es[0]), es[1..]);
    }
  }

  /** A step is open and the completion thread has not been told to stop. */
  predicate IsOpen(s: State)
  {
    |s.stepStarted| == |s.stepCompleted| + 1 && s.running
  }

  function HandlerRank(h: HandlerPc): nat
  {
    match h
    case HLock => 9 case HSet => 8 case HUnlock => 6 case HNotify => 5 case HIdle => 0
  }

  /** What is left for the thread before the mailbox is full, ... */
  function WaitingRank(c: CompleterPc): nat
  {
    match c
    case CTimedOut => 7 case CTake => 6 case CUnlock => 5 case CLoop => 4 case CLock => 3 case CRelock => 3
    case CTest => 2 case CBlock => 1 case CStamp => 1 case _ => 0
  }

  /** ... and when it is. */
  function ServingRank(c: CompleterPc): nat
  {
    match c
    case CUnlock => 6 case CLoop => 5 case CLock => 4 case CRelock => 4 case CTest => 3 case CTimedOut => 3
    case CTake => 2 case _ => 0
  }

  function Remaining(s: State): nat
  {
    HandlerRank(s.h) + if s.needsComplete then ServingRank(s.c) else WaitingRank(s.c)
  }

  predicate IsWakeup(e: Event)
  {
    e.Spurious? || e.Timeout?
  }

  function Wakeups(es: seq<Event>): nat
  {
    if es == [] then 0 else (if IsWakeup(es[0]) then 1 else 0) + Wakeups(es[1..])
  }

  lemma MoveCounts(s: State, e: Event)
    requires Inv(s) && IsOpen(s) && Enabled(s, e) && IsOpen(Apply(s, e))
    ensures Remaining(Apply(s, e)) <= if IsWakeup(e) then Remaining(s) + 7 else Remaining(s) - 1
  {
  }

  lemma Preserve(s: State, e: Event)
    requires Inv(s) && Enabled(s, e)
    ensures Inv(Apply(s, e))
  {
    match e
    case HandlerStep => PreserveHandler(s);
    case CompleterStep => PreserveCompleter(s);
    case _ =>
  }

  lemma {:induction false} CompletedWithin(s: State, es: seq<Event>)
    requires Inv(s) && ValidRun(s, es) && |es| > Remaining(s) + 8 * Wakeups(es)
    ensures exists k :: 0 <= k <= |es| && ValidRun(s, es[..k]) && !IsOpen(Exec(s, es[..k]))
    decreases |es|
  {
    if !IsOpen(s) {
      assert es[..0] == [] && !IsOpen(Exec(s, es[..0]));
    } else {
      var s', rest := Apply(s, es[0]), es[1..];
      assert rest[..0] == [];
      Preserve(s, es[0]);
      if IsOpen(s') {
        MoveCounts(s, es[0]);
        CompletedWithin(s', rest);
      } else {
        assert ValidRun(s', rest[..0]) && !IsOpen(Exec(s', rest[..0]));
      }
      var k :| 0 <= k <= |rest| && ValidRun(s', rest[..k]) && !IsOpen(Exec(s', rest[..k]));
      assert es[..k + 1][1..] == rest[..k];
      assert ValidRun(s, es[..k + 1]) && Exec(s, es[..k + 1]) == Exec(s', rest[..k]);
    }
  }

  /** From any reachable point, an open step is completed, or the thread told to stop, within
      17 events and eight more per timeout or spurious wake-up; and every step begun by the
      runtime is stamped. */
  lemma OpenStepIsCompletedWithin(es: seq<Event>, more: seq<Event>)
    requires ValidRun(Start(), es) && ValidRun(Exec(Start(), es), more)
    requires |more| >= 17 + 8 * Wakeups(more)
    ensures |Exec(Start(), es).stepStarted| == StepsBegun(Start(), es)
    ensures var s := Exec(Start(), es);
            exists k :: 0 <= k <= |more| && ValidRun(s, more[..k]) && !IsOpen(Exec(s, more[..k]))
  {
    StepsAreStamped(Start(), es);
    RunInv(Start(), es);
    CompletedWithin(Exec(Start(), es), more);
  }

  // -------------------------------------------------------------------- the final check

  /** What `AssertValid` says of a participant's data. */
  ghost predicate Accepts(s: State)
  {
    !s.running && !s.needsComplete && Ordered(s.stepStarted, s.stepCompleted)
  }

  predicate IsOver(s: State)
  {
    s.h.HIdle? && s.c.CExit?
  }

  /** When both threads are done, the final check accepts if and only if every started step
      was completed. */
  lemma FinalCheckIff(es: seq<Event>)
    requires ValidRun(Start(), es) && IsOver(Exec(Start(), es))
    ensures var s := Exec(Start(), es); Accepts(s) <==> |s.stepStarted| == |s.stepCompleted|
  {
    RunInv(Start(), es);
  }

  lemma {:induction false} CompletionsStay(s: State, es: seq<Event>)
    requires ValidRun(s, es)
    ensures |s.stepCompleted| <= |Exec(s, es).stepCompleted|
    decreases |es|
  {
    if es != [] {
      CompletionsStay(Apply(s, es[0]), es[1..]);
    }
  }

  lemma {:induction false} RunAppend(s: State, es: seq<Event>, more: seq<Event>)
    requires ValidRun(s, es) && ValidRun(Exec(s, es), more)
    ensures ValidRun(s, es + more) && Exec(s, es + more) == Exec(Exec(s, es), more)
    decreases |es|
  {
    if es == [] {
      assert es + more == more;
    } else {
      assert (es + more)[1..] == es[1..] + more;
      RunAppend(Apply(s, es[0]), es[1..], more);
    }
  }

  /** So it accepts if the thread is told to stop while no step is open and none begins
      later. */
  lemma FinalCheckAccepts(es: seq<Event>, more: seq<Event>)
    requires ValidRun(Start(), es) && ValidRun(Exec(Start(), es), more)
    requires var s, end := Exec(Start(), es), Exec(Exec(Start(), es), more);
             && |s.stepStarted| == |s.stepCompleted| && |end.stepStarted| == |s.stepStarted| && IsOver(end)
    ensures Accepts(Exec(Exec(Start(), es), more))
  {
    RunAppend(Start(), es, more);
    RunInv(Start(), es + more);
    CompletionsStay(Exec(Start(), es), more);
    FinalCheckIff(es + more);
  }

  lemma Prepend(s: State, e: Event, es: seq<Event>)
    requires Enabled(s, e) && ValidRun(Apply(s, e), es)
    ensures ValidRun(s, [e] + es) && Exec(s, [e] + es) == Exec(Apply(s, e), es)
  {
    assert ([e] + es)[1..] == es;
  }

  /** And a run in which it does not: a step begins, and the thread is told to stop before it
      has looked into the mailbox. */
  lemma FinalCheckCanFail() returns (es: seq<Event>)
    ensures ValidRun(Start(), es) && IsOver(Exec(Start(), es)) && !Accepts(Exec(Start(), es))
  {
    var s1 := Handle(Start());
    var s2 := Handle(s1);
    var s3 := Handle(s2);
    var s4 := Handle(s3);
    var s5 := Handle(s4);
    var s6 := Apply(s5, StopHandler);
    es := [];
    assert Complete(s6).needsComplete && IsOver(Complete(s6));
    Prepend(s6, CompleterStep, es);
    es := [CompleterStep] + es;
    Prepend(s5, StopHandler, es);
    es := [StopHandler] + es;
    Prepend(s4, HandlerStep, es);
    es := [HandlerStep] + es;
    Prepend(s3, HandlerStep, es);
    es := [HandlerStep] + es;
    Prepend(s2, HandlerStep, es);
    es := [HandlerStep] + es;
    Prepend(s1, HandlerStep, es);
    es := [HandlerStep] + es;
    Prepend(Start(), HandlerStep, es);
    es := [HandlerStep] + es;
  }
}
