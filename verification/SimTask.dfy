/** The handoff between a simulation step handler and a worker thread over a mutex, a
    condition variable and a `blocking` flag. Every statement that touches shared state is
    one step; an event list is one interleaving, spurious wake-ups included. */
module SimTask {
  import opened Arithmetic
  import opened CounterCodec

  datatype HandlerPc =
    | HIdle | HBumpMajor | HResetMinor | HBumpFirst | HPublishFirst | HLockSet | HSet | HUnlockSet | HNotify
    | HLockWait | HTest | HBlock | HAsleep | HRelock | HLeave | HBumpLast | HPublishLast | HStopNotify

  datatype WorkerPc =
    | WLoop | WLock | WTest | WBlock | WAsleep | WRelock | WBody | WBump | WPublish | WClear | WNotify | WUnlock | WDone

  datatype Owner = Nobody | Handler | Worker

  datatype State = State(
    h: HandlerPc, w: WorkerPc, owner: Owner, blocking: bool, running: bool,
    major: nat, minor: nat, published: seq<seq<Byte>>)

  datatype Event =
    | HandlerStep(timeIsUp: bool)  // `timeIsUp` is read only when a new simulation step begins
    | WorkerStep
    | SpuriousHandler
    | SpuriousWorker

  function Start(): State
  {
    State(HIdle, WLoop, Nobody, false, true, 0, 0, [])
  }

  // ---------------------------------------------------------------- transitions

  predicate Enabled(s: State, e: Event)
  {
    match e
    case HandlerStep(_) =>
      s.h != HAsleep && ((s.h.HLockSet? || s.h.HLockWait? || s.h.HRelock?) ==> s.owner == Nobody)
    case WorkerStep =>
      s.w != WAsleep && s.w != WDone && ((s.w.WLock? || s.w.WRelock?) ==> s.owner == Nobody)
    case SpuriousHandler => s.h == HAsleep
    case SpuriousWorker => s.w == WAsleep
  }

  function NotifyAll(s: State): State
  {
    s.(h := if s.h == HAsleep then HRelock else s.h, w := if s.w == WAsleep then WRelock else s.w)
  }

  function Publish(s: State): State
  {
    s.(published := s.published + [Bytes(Pack(s.major, s.minor))])
  }

  function Handle(s: State, timeIsUp: bool): State
  {
    match s.h
    case HIdle =>
      if !s.running then s
      else if timeIsUp then s.(running := false, h := HStopNotify)
      else s.(h := HBumpMajor)
    case HStopNotify => NotifyAll(s.(h := HIdle))
    case HBumpMajor => s.(major := (s.major + 1) % UINT32, h := HResetMinor)
    case HResetMinor => s.(minor := 0, h := HBumpFirst)
    case HBumpFirst => s.(minor := (s.minor + 1) % UINT32, h := HPublishFirst)
    case HPublishFirst => Publish(s).(h := HLockSet)
    case HLockSet => s.(owner := Handler, h := HSet)
    case HSet => s.(blocking := true, h := HUnlockSet)
    case HUnlockSet => s.(owner := Nobody, h := HNotify)
    case HNotify => NotifyAll(s.(h := HLockWait))
    case HLockWait => s.(owner := Handler, h := HTest)
    case HTest => if !s.blocking || !s.running then s.(h := HLeave) else s.(h := HBlock)
    case HBlock => s.(owner := Nobody, h := HAsleep)
    case HRelock => s.(owner := Handler, h := HTest)
    case HLeave => s.(owner := Nobody, h := if s.running then HBumpLast else HIdle)
    case HBumpLast => s.(minor := (s.minor + 1) % UINT32, h := HPublishLast)
    case HPublishLast => Publish(s).(h := HIdle)
    case HAsleep => s
  }

  function Work(s: State): State
  {
    match s.w
    case WLoop => s.(w := if s.running then WLock else WDone)
    case WLock => s.(owner := Worker, w := WTest)
    case WTest => if s.blocking || !s.running then s.(w := WBody) else s.(w := WBlock)
    case WBlock => s.(owner := Nobody, w := WAsleep)
    case WRelock => s.(owner := Worker, w := WTest)
    case WBody => if s.running then s.(w := WBump) else s.(owner := Nobody, w := WDone)
    case WBump => s.(minor := (s.minor + 1) % UINT32, w := WPublish)
    case WPublish => Publish(s).(w := WClear)
    case WClear => s.(blocking := false, w := WNotify)
    case WNotify => NotifyAll(s.(w := WUnlock))
    case WUnlock => s.(owner := Nobody, w := WLoop)
    case WAsleep => s
    case WDone => s
  }

  function Apply(s: State, e: Event): State
    requires Enabled(s, e)
  {
    match e
    case HandlerStep(timeIsUp) => Handle(s, timeIsUp)
    case WorkerStep => Work(s)
    case SpuriousHandler => s.(h := HRelock)
    case SpuriousWorker => s.(w := WRelock)
  }

  predicate ValidRun(s: State, es: seq<Event>)
    decreases |es|
  {
    es == [] || (Enabled(s, es[0]) && ValidRun(Apply(s, es[0]), es[1..]))
  }

  function Exec(s: State, es: seq<Event>): State
    requires ValidRun(s, es)
    decreases |es|
  {
    if es == [] then s else Exec(Apply(s, es[0]), es[1..])
  }

  // ------------------------------------------------------------------ invariant

  /** The k-th published pair: three messages per simulation step, numbered 1, 2, 3. */
  function Expected(k: nat): (nat, nat)
  {
    ((k / 3 + 1) % UINT32, k % 3 + 1)
  }

  predicate HandlerOwns(h: HandlerPc) { (h.HSet? || h.HUnlockSet? || h.HTest? || h.HBlock? || h.HLeave?) }
  predicate WorkerOwns(w: WorkerPc)
  {
    w.WTest? || w.WBlock? || w.WBody? || w.WBump? || w.WPublish? || w.WClear? || w.WNotify? || w.WUnlock?
  }

  /** The worker is not serving a request. */
  predicate Quiet(s: State)
  {
    || s.w.WLoop? || s.w.WLock? || s.w.WTest? || s.w.WBlock? || s.w.WAsleep? || s.w.WRelock? || s.w.WDone?
    || (s.w == WBody && !s.running)
  }

  predicate Waiting(h: HandlerPc)
  {
    h.HUnlockSet? || h.HNotify? || h.HLockWait? || h.HTest? || h.HBlock? || h.HAsleep? || h.HRelock?
  }

  ghost predicate HandlerPart(s: State)
  {
    var n := |s.published|;
    match s.h
    case HIdle => n % 3 == 0 && s.major == n / 3 % UINT32
    case HStopNotify => n % 3 == 0 && s.major == n / 3 % UINT32
    case HBumpMajor => n % 3 == 0 && s.major == n / 3 % UINT32
    case HResetMinor => n % 3 == 0
    case HBumpFirst => n % 3 == 0 && s.minor == 0
    case HPublishFirst => n % 3 == 0 && s.minor == 1
    case HLockSet => n % 3 == 1 && s.minor == 1
    case HSet => n % 3 == 1 && s.minor == 1
    case HLeave => n % 3 == 2 && s.minor == 2
    case HBumpLast => n % 3 == 2 && s.minor == 2
    case HPublishLast => n % 3 == 2 && s.minor == 3
    case _ => true
  }

  ghost predicate WaitingPart(s: State)
  {
    var n := |s.published|;
    if !s.blocking then n % 3 == 2 && s.minor == 2 && (Quiet(s) || (s.w.WNotify? || s.w.WUnlock?))
    else match s.w
         case WPublish => n % 3 == 1 && s.minor == 2
         case WClear => n % 3 == 2 && s.minor == 2
         case WNotify => false
         case WUnlock => false
         case _ => n % 3 == 1 && s.minor == 1
  }

  /** Everything but the contents of the messages. */
  ghost predicate Control(s: State)
  {
    && s.minor <= 3
    && (s.owner == Handler <==> HandlerOwns(s.h)) && (s.owner == Worker <==> WorkerOwns(s.w))
    && (!(s.h.HIdle? || s.h.HStopNotify?) ==> s.running)
    && (!(s.h.HIdle? || s.h.HStopNotify? || s.h.HBumpMajor?) ==> s.major == (|s.published| / 3 + 1) % UINT32)
    && (s.w == WDone ==> !s.running)
    && (if Waiting(s.h) then WaitingPart(s) else HandlerPart(s) && !s.blocking && Quiet(s))
    && (s.w == WBlock ==> !s.blocking) && (s.h == HBlock ==> s.blocking)
    // who sleeps with its condition true is still owed a notification
    && (s.w == WAsleep && s.blocking ==> (s.h.HUnlockSet? || s.h.HNotify?))
    && (s.h == HAsleep && !s.blocking ==> s.w == WNotify)
  }

  ghost predicate InOrder(published: seq<seq<Byte>>)
  {
    forall i :: 0 <= i < |published| ==> published[i] == Bytes(Pack(Expected(i).0, Expected(i).1))
  }

  ghost predicate Inv(s: State)
  {
    Control(s) && InOrder(s.published)
  }

  lemma PublishesExpected(s: State)
    requires Control(s) && (s.h.HPublishFirst? || s.h.HPublishLast? || s.w.WPublish?)
    ensures (s.major, s.minor) == Expected(|s.published|)
  {
  }

  /** Before the first message of a step, and between steps. */
  predicate Opening(h: HandlerPc) { (h.HIdle? || h.HStopNotify? || h.HBumpMajor? || h.HResetMinor? || h.HBumpFirst?) }

  lemma ControlOpening(s: State, timeIsUp: bool)
    requires Control(s) && Enabled(s, HandlerStep(timeIsUp)) && Opening(s.h)
    ensures Control(Handle(s, timeIsUp))
  {
  }

  lemma ControlOutside(s: State, timeIsUp: bool)
    requires Control(s) && Enabled(s, HandlerStep(timeIsUp)) && !Waiting(s.h)
    ensures Control(Handle(s, timeIsUp))
  {
    if Opening(s.h) {
      ControlOpening(s, timeIsUp);
    } else if s.h.HLeave? || s.h.HBumpLast? || s.h.HPublishLast? {
      ControlClosing(s, timeIsUp);
    }
  }

  lemma ControlClosing(s: State, timeIsUp: bool)
    requires Control(s) && Enabled(s, HandlerStep(timeIsUp)) && (s.h.HLeave? || s.h.HBumpLast? || s.h.HPublishLast?)
    ensures Control(Handle(s, timeIsUp))
  {
  }

  lemma ControlWaiting(s: State, timeIsUp: bool)
    requires Control(s) && Enabled(s, HandlerStep(timeIsUp)) && Waiting(s.h)
    ensures Control(Handle(s, timeIsUp)) && Handle(s, timeIsUp).published == s.published
  {
  }

  lemma ControlServing(s: State)
    requires Control(s) && (s.w.WBump? || s.w.WPublish? || s.w.WClear? || s.w.WNotify? || s.w.WUnlock?)
    ensures Control(Work(s))
  {
  }

  lemma ControlOfWorker(s: State)
    requires Control(s) && Enabled(s, WorkerStep)
    ensures Control(Work(s))
  {
    if s.w.WBump? || s.w.WPublish? || s.w.WClear? || s.w.WNotify? || s.w.WUnlock? {
      ControlServing(s);
    }
  }

  lemma InOrderPublish(s: State)
    requires Inv(s) && (s.h.HPublishFirst? || s.h.HPublishLast? || s.w.WPublish?)
    ensures InOrder(Publish(s).published)
  {
    PublishesExpected(s);
  }

  lemma PreserveHandler(s: State, timeIsUp: bool)
    requires Inv(s) && Enabled(s, HandlerStep(timeIsUp))
    ensures Inv(Handle(s, timeIsUp))
  {
    if Waiting(s.h) {
      ControlWaiting(s, timeIsUp);
    } else {
      ControlOutside(s, timeIsUp);
      if s.h.HPublishFirst? || s.h.HPublishLast? {
        InOrderPublish(s);
      } else {
        assert Handle(s, timeIsUp).published == s.published;
      }
    }
  }

  lemma PreserveWorker(s: State)
    requires Inv(s) && Enabled(s, WorkerStep)
    ensures Inv(Work(s))
  {
    ControlOfWorker(s);
    if s.w.WPublish? {
      InOrderPublish(s);
    } else {
      assert Work(s).published == s.published;
    }
  }

  lemma Preserve(s: State, e: Event)
    requires Inv(s) && Enabled(s, e)
    ensures Inv(Apply(s, e))
  {
    match e
    case HandlerStep(t) => PreserveHandler(s, t);
    case WorkerStep => PreserveWorker(s);
    case SpuriousHandler =>
    case SpuriousWorker =>
  }

  lemma {:induction false} RunInv(s: State, es: seq<Event>)
    requires Inv(s) && ValidRun(s, es)
    ensures Inv(Exec(s, es))
    decreases |es|
  {
    if es != [] {
      Preserve(s, es[0]);
      RunInv(Apply(s, es[0]), es[1..]);
    }
  }

  // ------------------------------------------------------------------- theorems

  function Decode(bytes: seq<Byte>): (nat, nat)
    requires |bytes| == 8
  {
    (ExtractMajor(Gather(bytes, 8)), ExtractMinor(Gather(bytes, 8)))
  }

  /** In every interleaving, shutdown included, the decoded messages are
      (1,1), (1,2), (1,3), (2,1), ... in this order, with no gap and no repetition. */
  lemma PublishedInOrder(es: seq<Event>, i: nat)
    requires ValidRun(Start(), es) && i < |Exec(Start(), es).published|
    ensures |Exec(Start(), es).published[i]| == 8
    ensures Decode(Exec(Start(), es).published[i]) == ((i / 3 + 1) % UINT32, i % 3 + 1)
  {
    RunInv(Start(), es);
    CodecRoundTrip(Expected(i).0, Expected(i).1);
  }

  predicate HandlerTouchesCounter(h: HandlerPc)
  {
    h.HBumpMajor? || h.HResetMinor? || h.HBumpFirst? || h.HPublishFirst? || h.HBumpLast? || h.HPublishLast?
  }
  predicate WorkerTouchesCounter(w: WorkerPc) { (w.WBump? || w.WPublish?) }

  /** The threads never touch the counter at once, although only the worker holds the
      mutex while it does. */
  lemma CounterIsExclusive(es: seq<Event>)
    requires ValidRun(Start(), es)
    ensures var s := Exec(Start(), es);
            && !(HandlerTouchesCounter(s.h) && WorkerTouchesCounter(s.w))
            && (WorkerTouchesCounter(s.w) ==> s.blocking && s.owner == Worker && Waiting(s.h))
  {
    RunInv(Start(), es);
  }

  /** A thread sleeps with its condition already true only while the other one still owes
      its `notify_all`. */
  lemma NoLostHandoff(es: seq<Event>)
    requires ValidRun(Start(), es)
    ensures var s := Exec(Start(), es);
            && (s.w == WAsleep && s.blocking ==> (s.h.HUnlockSet? || s.h.HNotify?))
            && (s.h == HAsleep && !s.blocking ==> s.w == WNotify)
  {
    RunInv(Start(), es);
  }

  // ------------------------------------------------------ how much is published

  /** An idle handler that is still running begins a step if and only if the time is not up,
      and stops the worker if and only if it is; once stopped it does nothing. */
  lemma IdleHandlerBegins(s: State, timeIsUp: bool)
    requires s.h == HIdle
    ensures s.running ==> (Handle(s, timeIsUp).h == HBumpMajor <==> !timeIsUp)
    ensures s.running ==> (!Handle(s, timeIsUp).running <==> timeIsUp)
    ensures s.running && timeIsUp ==> Handle(s, timeIsUp) == s.(running := false, h := HStopNotify)
    ensures s.running && !timeIsUp ==> Handle(s, timeIsUp) == s.(h := HBumpMajor)
    ensures !s.running ==> Handle(s, timeIsUp) == s
  {
  }

  /** The simulation steps begun in a run: by an idle, running handler whose time is not up. */
  function StepsBegun(s: State, es: seq<Event>): nat
    requires ValidRun(s, es)
    decreases |es|
  {
    if es == [] then 0
    else
      StepsBegun(Apply(s, es[0]), es[1..])
      + if s.h == HIdle && s.running && es[0].HandlerStep? && !es[0].timeIsUp then 1 else 0
  }

  /** What is published of the open step: nothing, one message or two. */
  ghost predicate Tally(s: State, begun: nat)
  {
    if InStep(s) then |s.published| / 3 + 1 == begun else |s.published| == 3 * begun
  }

  lemma TallyHandler(s: State, timeIsUp: bool, begun: nat)
    requires Control(s) && Enabled(s, HandlerStep(timeIsUp)) && Tally(s, begun)
    ensures Tally(Handle(s, timeIsUp), begun + if s.h == HIdle && s.running && !timeIsUp then 1 else 0)
  {
    if s.h == HIdle {
      IdleHandlerBegins(s, timeIsUp);
    }
  }

  lemma TallyWorker(s: State, begun: nat)
    requires Control(s) && Enabled(s, WorkerStep) && Tally(s, begun)
    ensures Tally(Work(s), begun)
  {
  }

  lemma TallyEvent(s: State, e: Event, begun: nat)
    requires Control(s) && Enabled(s, e) && Tally(s, begun)
    ensures Tally(Apply(s, e), begun + if s.h == HIdle && s.running && e.HandlerStep? && !e.timeIsUp then 1 else 0)
  {
    match e
    case HandlerStep(timeIsUp) => TallyHandler(s, timeIsUp, begun);
    case WorkerStep => TallyWorker(s, begun);
    case _ =>
  }

  lemma {:induction false} TallyRun(s: State, es: seq<Event>, begun: nat)
    requires Inv(s) && ValidRun(s, es) && Tally(s, begun)
    ensures Tally(Exec(s, es), begun + StepsBegun(s, es))
    decreases |es|
  {
    if es != [] {
      var e := es[0];
      var more := if s.h == HIdle && s.running && e.HandlerStep? && !e.timeIsUp then 1 else 0;
      TallyEvent(s, e, begun);
      Preserve(s, e);
      TallyRun(Apply(s, e), es[1..], begun + more);
    }
  }

  /** In every run, when the handler is back after k steps begun, exactly 3 * k messages are
      published; in the k-th step, between 3 * (k - 1) and 3 * k - 1. */
  lemma EveryStepPublishesThree(es: seq<Event>)
    requires ValidRun(Start(), es)
    ensures var s, k := Exec(Start(), es), StepsBegun(Start(), es);
            && (s.h == HIdle ==> |s.published| == 3 * k)
            && (InStep(s) ==> 3 * (k - 1) <= |s.published| < 3 * k)
  {
    RunInv(Start(), es);
    TallyRun(Start(), es, 0);
  }

  // ------------------------------------------------------------------- progress

  predicate IsSpurious(e: Event) { e.SpuriousHandler? || e.SpuriousWorker? }

  predicate InStep(s: State) { !(s.h.HIdle? || s.h.HStopNotify?) }

  function HandlerRank(h: HandlerPc): nat
  {
    match h
    case HIdle => 0 case HStopNotify => 0 case HPublishLast => 1 case HBumpLast => 2 case HLeave => 3
    case HAsleep => 4 case HBlock => 5 case HTest => 6 case HRelock => 7 case HLockWait => 7 case HNotify => 12
    case HUnlockSet => 13 case HSet => 14 case HLockSet => 15 case HPublishFirst => 16 case HBumpFirst => 17
    case HResetMinor => 18 case HBumpMajor => 19
  }

  function WorkerRank(w: WorkerPc): nat
  {
    match w
    case WDone => 0 case WAsleep => 0 case WBlock => 1 case WTest => 2 case WLock => 3 case WRelock => 3 case WLoop => 4
    case WUnlock => 5 case WNotify => 10 case WClear => 11 case WPublish => 12 case WBump => 13 case WBody => 14
  }

  /** What is left to do in this simulation step. */
  function Remaining(s: State): nat
  {
    HandlerRank(s.h) + WorkerRank(s.w)
    + (if InStep(s) && |s.published| % 3 < 2 && !(s.w.WBody? || s.w.WBump? || s.w.WPublish?) then 15 else 0)
  }

  /** While a step is in progress some thread can move, without help from spurious wake-ups. */
  lemma SomeThreadCanMove(es: seq<Event>)
    requires ValidRun(Start(), es) && InStep(Exec(Start(), es))
    ensures var s := Exec(Start(), es); Enabled(s, HandlerStep(false)) || Enabled(s, WorkerStep)
  {
    RunInv(Start(), es);
  }

  lemma WorkerMoveCounts(s: State)
    requires Control(s) && InStep(s) && Enabled(s, WorkerStep)
    ensures Remaining(Work(s)) < Remaining(s)
  {
  }

  lemma EveryMoveCounts(s: State, e: Event)
    requires Inv(s) && InStep(s) && Enabled(s, e) && !IsSpurious(e)
    ensures Remaining(Apply(s, e)) < Remaining(s)
  {
    if e.WorkerStep? {
      WorkerMoveCounts(s);
    }
  }

  function SpuriousCount(es: seq<Event>): nat
  {
    if es == [] then 0 else (if IsSpurious(es[0]) then 1 else 0) + SpuriousCount(es[1..])
  }

  /** A thread that wakes for nothing has to test and to block again. */
  lemma SpuriousMoveCosts(s: State, e: Event)
    requires Enabled(s, e) && IsSpurious(e)
    ensures Remaining(Apply(s, e)) <= Remaining(s) + 3
  {
  }

  lemma {:induction false} StepEnds(s: State, es: seq<Event>)
    requires Inv(s) && ValidRun(s, es) && |es| > Remaining(s) + 4 * SpuriousCount(es)
    ensures exists k :: 0 <= k <= |es| && ValidRun(s, es[..k]) && !InStep(Exec(s, es[..k]))
    decreases |es|
  {
    if !InStep(s) {
      assert es[..0] == [] && !InStep(Exec(s, es[..0]));
    } else {
      var s', rest := Apply(s, es[0]), es[1..];
      if IsSpurious(es[0]) {
        SpuriousMoveCosts(s, es[0]);
      } else {
        EveryMoveCounts(s, es[0]);
      }
      Preserve(s, es[0]);
      StepEnds(s', rest);
      var k :| 0 <= k <= |rest| && ValidRun(s', rest[..k]) && !InStep(Exec(s', rest[..k]));
      assert es[..k + 1][1..] == rest[..k];
      assert ValidRun(s, es[..k + 1]) && Exec(s, es[..k + 1]) == Exec(s', rest[..k]);
    }
  }

  /** From any reachable point, a simulation step is over after at most 49 further thread
      steps and four more events per spurious wake-up, however they are interleaved. */
  lemma EveryStepFinishes(es: seq<Event>, more: seq<Event>)
    requires ValidRun(Start(), es) && ValidRun(Exec(Start(), es), more)
    requires |more| >= 49 + 4 * SpuriousCount(more)
    ensures var s := Exec(Start(), es);
            exists k :: 0 <= k <= |more| && ValidRun(s, more[..k]) && !InStep(Exec(s, more[..k]))
  {
    RunInv(Start(), es);
    StepEnds(Exec(Start(), es), more);
  }

  // ------------------------------------------------------------------- shutdown

  /** `running` is cleared outside the mutex, so the notification that goes with it can be
      lost: the worker tests, then the handler stops and notifies, then the worker sleeps.
      After the returned run the handler does nothing any more. */
  lemma ShutdownWakeupCanBeLost() returns (es: seq<Event>)
    ensures ValidRun(Start(), es)
    ensures var s := Exec(Start(), es);
            s.w == WAsleep && !s.running && s.h == HIdle && Handle(s, true) == s && Handle(s, false) == s
  {
    var s0 := Start();
    var s1 := s0.(w := WLock);
    var s2 := s1.(w := WTest, owner := Worker);
    var s3 := s2.(w := WBlock);
    var s4 := s3.(running := false, h := HStopNotify);
    var s5 := s4.(h := HIdle);
    es := [];
    assert ValidRun(s5.(w := WAsleep, owner := Nobody), es);
    Prepend(s5, WorkerStep, es);
    es := [WorkerStep] + es;
    Prepend(s4, HandlerStep(false), es);
    es := [HandlerStep(false)] + es;
    Prepend(s3, HandlerStep(true), es);
    es := [HandlerStep(true)] + es;
    Prepend(s2, WorkerStep, es);
    es := [WorkerStep] + es;
    Prepend(s1, WorkerStep, es);
    es := [WorkerStep] + es;
    Prepend(s0, WorkerStep, es);
    es := [WorkerStep] + es;
  }

  lemma {:induction false} StaysAwake(s: State, es: seq<Event>)
    requires !s.running && !s.w.WBlock? && !s.w.WAsleep? && ValidRun(s, es)
    ensures !Exec(s, es).w.WAsleep?
    decreases |es|
  {
    if es != [] {
      StaysAwake(Apply(s, es[0]), es[1..]);
    }
  }

  ghost predicate NeverSleepsAgain(s: State)
  {
    forall es :: ValidRun(s, es) ==> Exec(s, es).w != WAsleep
  }

  lemma BlockingSleeps(s: State)
    requires s.w == WBlock
    ensures !NeverSleepsAgain(s)
  {
    assert ValidRun(Apply(s, WorkerStep), []);
    Prepend(s, WorkerStep, []);
    assert Exec(s, [WorkerStep] + []).w == WAsleep;
  }

  /** Exactly one point of the worker loses it: when the shutdown notification is sent, the
      worker never sleeps again if and only if it is not just about to block. */
  lemma ShutdownReachesWorkerUnlessBlocking(es: seq<Event>)
    requires ValidRun(Start(), es) && Exec(Start(), es).h == HStopNotify && !Exec(Start(), es).running
    ensures var s := Exec(Start(), es); s.w != WBlock <==> NeverSleepsAgain(Handle(s, false))
  {
    var t := Handle(Exec(Start(), es), false);
    if t.w == WBlock {
      BlockingSleeps(t);
    } else {
      forall more | ValidRun(t, more) ensures Exec(t, more).w != WAsleep { StaysAwake(t, more); }
    }
  }

  lemma Prepend(s: State, e: Event, es: seq<Event>)
    requires Enabled(s, e) && ValidRun(Apply(s, e), es)
    ensures ValidRun(s, [e] + es) && Exec(s, [e] + es) == Exec(Apply(s, e), es)
  {
    assert ([e] + es)[1..] == es;
  }
}
