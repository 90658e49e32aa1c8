/** The one-shot timer and the two task schedules of the LIN tests: one that runs its list
    once or, on request, cyclically, and one that always wraps around. A task is its index
    in the list; running an action is an event that may schedule the next task any number
    of times while it runs. */
module LinSchedule {
  import opened Arithmetic
  import opened Wrappers

  /** A running timer: the task it will fire, when it was armed and when it is due. */
  datatype Alarm = Alarm(task: nat, armedAt: int, timeOut: int)

  datatype Firing = Firing(task: nat, armedAt: int, at: int)

  /** `armed` and `fired` are histories: every arming and every firing so far. */
  datatype Sched = Sched(
    delays: seq<int>, next: nat, now: int, cyclic: bool, timer: Option<Alarm>, armed: seq<nat>, fired: seq<Firing>)

  datatype Event =
    | ScheduleNext
    | Execute(now: int, rearm: nat)  // the action, if it runs, schedules `rearm` times
    | Reset
    | SetCyclic(enabled: bool)

  // ---------------------------------------------------------------- transitions

  function Arm(s: Sched, task: nat): Sched
    requires task < |s.delays|
  {
    s.(timer := Some(Alarm(task, s.now, s.now + s.delays[task])), armed := s.armed + [task])
  }

  /** The schedule with the optional cyclic mode. */
  function Next(s: Sched): Sched
  {
    if s.next >= |s.delays| then s
    else Arm(s.(next := if s.cyclic && s.next + 1 == |s.delays| then 0 else s.next + 1), s.next)
  }

  /** The schedule that always wraps; it needs a task to point at. */
  function NextWrapping(s: Sched): Sched
    requires s.next < |s.delays|
  {
    Arm(s.(next := if s.next + 1 == |s.delays| then 0 else s.next + 1), s.next)
  }

  predicate Due(s: Sched)
  {
    s.timer.Some? && s.timer.value.timeOut <= s.now
  }

  function Fire(s: Sched): Sched
    requires s.timer.Some?
  {
    s.(timer := None, fired := s.fired + [Firing(s.timer.value.task, s.timer.value.armedAt, s.now)])
  }

  function NextTimes(s: Sched, n: nat): Sched
  {
    if n == 0 then s else Next(NextTimes(s, n - 1))
  }

  /** The timer is cleared before the action runs, so the action may arm it again. */
  function Tick(s: Sched, now: int, rearm: nat): Sched
  {
    var t := s.(now := now);
    if Due(t) then NextTimes(Fire(t), rearm) else t
  }

  function Apply(s: Sched, e: Event): Sched
  {
    match e
    case ScheduleNext => Next(s)
    case Execute(now, rearm) => Tick(s, now, rearm)
    case Reset => Next(s.(next := 0))
    case SetCyclic(enabled) => s.(cyclic := enabled)
  }

  function Exec(s: Sched, es: seq<Event>): Sched
  {
    if es == [] then s else Apply(Exec(s, es[..|es| - 1]), es[|es| - 1])
  }

  function Empty(delays: seq<int>): Sched
  {
    Sched(delays, 0, 0, false, None, [], [])
  }

  /** Construction ends with a reset, which arms the first task. */
  function New(delays: seq<int>): Sched
  {
    Next(Empty(delays))
  }

  // -------------------------------------------------------------------- classes

  /** The timer as the source has it: the action is the task index, `NOT_DUE` the
      latest representable time. */
  class Timer {
    const NOT_DUE: int := 0x7FFF_FFFF_FFFF_FFFF
    var isActive: bool
    var timeOut: int
    var action: nat

    constructor ()
      ensures !isActive && timeOut == NOT_DUE
    {
      isActive, timeOut, action := false, NOT_DUE, 0;
    }

    method Set(timeOut: int, action: nat)
      modifies this
      ensures isActive && this.timeOut == timeOut && this.action == action
    {
      isActive := true;
      this.timeOut := timeOut;
      this.action := action;
    }

    method Clear()
      modifies this
      ensures !isActive && timeOut == NOT_DUE
    {
      isActive, timeOut, action := false, NOT_DUE, 0;
    }

    /** Hands out the action exactly when the timer is active and due, and is inactive by then. */
    method ExecuteAction(now: int) returns (fired: Option<nat>)
      modifies this
      ensures old(isActive) && old(timeOut) <= now ==> fired == Some(old(action)) && !isActive && timeOut == NOT_DUE
      ensures !(old(isActive) && old(timeOut) <= now) ==>
                fired == None && isActive == old(isActive) && timeOut == old(timeOut) && action == old(action)
    {
      if !isActive || now < timeOut {
        return None;
      }
      fired := Some(action);
      Clear();
    }
  }

  /** The schedule with the optional cyclic mode, step by step equal to the specification. */
  class Schedule {
    const timer: Timer
    var delays: seq<int>
    var next: nat
    var now: int
    var cyclic: bool
    ghost var armedAt: int
    ghost var armed: seq<nat>
    ghost var fired: seq<Firing>

    ghost function Model(): Sched
      reads this, timer
    {
      Sched(delays, next, now, cyclic,
            if timer.isActive then Some(Alarm(timer.action, armedAt, timer.timeOut)) else None, armed, fired)
    }

    constructor (tasks: seq<int>)
      ensures fresh(timer) && Model() == New(tasks)
    {
      timer := new Timer();
      delays, next, now, cyclic := tasks, 0, 0, false;
      armedAt, armed, fired := 0, [], [];
      new;
      ResetSchedule();
    }

    method ResetSchedule()
      modifies this, timer
      ensures Model() == Apply(old(Model()), Reset)
      ensures |delays| > 0 ==> timer.isActive && timer.action == 0 && timer.timeOut == now + delays[0]
    {
      next := 0;
      ScheduleNextTask();
    }

    method EnableCyclic(enabled: bool)
      modifies this
      ensures Model() == Apply(old(Model()), SetCyclic(enabled))
    {
      cyclic := enabled;
    }

    method ScheduleNextTask()
      modifies this, timer
      ensures Model() == Next(old(Model())) && now == old(now) && cyclic == old(cyclic) && delays == old(delays)
      ensures old(next) < |delays| ==>
                && timer.isActive && timer.action == old(next) && timer.timeOut == now + delays[old(next)]
                && next == (if cyclic && old(next) + 1 == |delays| then 0 else old(next) + 1)
      ensures old(next) >= |delays| ==> next == old(next) && timer.isActive == old(timer.isActive)
    {
      if next >= |delays| {
        return;
      }
      var current := next;
      next := next + 1;
      if cyclic && next == |delays| {
        next := 0;
      }
      timer.Set(now + delays[current], current);
      armedAt, armed := now, armed + [current];
    }

    /** `rearm` stands for what the action does. */
    method ExecuteTask(now: int, rearm: nat) returns (ran: Option<nat>)
      modifies this, timer
      ensures Model() == Tick(old(Model()), now, rearm)
      ensures this.now == now && cyclic == old(cyclic) && delays == old(delays)
      ensures ran.Some? <==> old(timer.isActive) && old(timer.timeOut) <= now
      ensures ran.Some? ==> ran.value == old(timer.action)
    {
      this.now := now;
      ran := timer.ExecuteAction(now);
      if ran.Some? {
        fired := fired + [Firing(ran.value, armedAt, now)];
        ghost var base := Model();
        assert base == Fire(old(Model()).(now := now));
        for i := 0 to rearm
          invariant Model() == NextTimes(base, i)
          invariant this.now == now && cyclic == old(cyclic) && delays == old(delays)
        {
          ScheduleNextTask();
        }
      }
    }
  }

  // ------------------------------------------------------------------ when a task fires

  /** Resetting a non-empty schedule arms its first task, due at now plus its delay. */
  lemma ResetArmsFirst(s: Sched)
    requires |s.delays| > 0
    ensures Apply(s, Reset).timer == Some(Alarm(0, s.now, s.now + s.delays[0]))
    ensures Apply(s, Reset).armed == s.armed + [0] && Apply(s, Reset).fired == s.fired
  {
  }

  /** A pending alarm is that of the task armed last, due one delay after it was armed. */
  ghost predicate AlarmOk(s: Sched)
  {
    s.timer.Some? ==>
      && s.timer.value.task < |s.delays| && s.armed != [] && s.armed[|s.armed| - 1] == s.timer.value.task
      && s.timer.value.timeOut == s.timer.value.armedAt + s.delays[s.timer.value.task]
  }

  lemma {:induction false} AlarmTimes(s: Sched, n: nat)
    requires AlarmOk(s)
    ensures AlarmOk(NextTimes(s, n)) && NextTimes(s, n).delays == s.delays
  {
    if n > 0 {
      AlarmTimes(s, n - 1);
    }
  }

  lemma {:induction false} AlarmRun(s: Sched, es: seq<Event>)
    requires AlarmOk(s)
    ensures AlarmOk(Exec(s, es)) && Exec(s, es).delays == s.delays
    decreases |es|
  {
    if es != [] {
      AlarmRun(s, es[..|es| - 1]);
      var t, e := Exec(s, es[..|es| - 1]), es[|es| - 1];
      if e.Execute? && Due(t.(now := e.now)) {
        AlarmTimes(Fire(t.(now := e.now)), e.rearm);
      }
    }
  }

  /** In every run, cyclic or not, with resets at any time: executing at `now` fires if and
      only if a task is armed whose delay, counted from when it was armed, has passed; it fires
      exactly that task, the one armed last. */
  lemma FiresExactlyWhenDue(delays: seq<int>, es: seq<Event>, now: int, rearm: nat)
    ensures var s := Exec(New(delays), es); var t := Apply(s, Execute(now, rearm));
            && (s.timer.Some? ==> s.armed != [] && s.timer.value.task == s.armed[|s.armed| - 1] < |delays|)
            && (if s.timer.Some? && s.timer.value.armedAt + delays[s.timer.value.task] <= now
                then t.fired == s.fired + [Firing(s.timer.value.task, s.timer.value.armedAt, now)]
                else t.fired == s.fired && t.timer == s.timer)
  {
    AlarmRun(New(delays), es);
    var s := Exec(New(delays), es).(now := now);
    if Due(s) {
      SameDelays(Fire(s), rearm);
    }
  }

  // ----------------------------------------------------- running the list once

  predicate NeverResets(es: seq<Event>)
  {
    forall e :: e in es ==> e != Reset && e != SetCyclic(true)
  }

  predicate Increasing(tasks: seq<nat>)
  {
    forall i, j :: 0 <= i < j < |tasks| ==> tasks[i] < tasks[j]
  }

  function Tasks(fs: seq<Firing>): seq<nat>
  {
    seq(|fs|, i requires 0 <= i < |fs| => fs[i].task)
  }

  /** What holds of a schedule that is not cyclic and is never reset. */
  ghost predicate OnceInv(s: Sched)
  {
    && !s.cyclic && s.next <= |s.delays|
    && (s.timer.Some? ==>
          var alarm := s.timer.value;
          alarm.task < s.next && alarm.timeOut == alarm.armedAt + s.delays[alarm.task])
    && Increasing(Tasks(s.fired))
    && (forall f :: f in s.fired ==> f.task < s.next && f.armedAt + s.delays[f.task] <= f.at)
    && (s.timer.Some? ==> forall f :: f in s.fired ==> f.task < s.timer.value.task)
  }

  lemma OnceNext(s: Sched)
    requires OnceInv(s)
    ensures OnceInv(Next(s))
  {
  }

  lemma {:induction false} OnceNextTimes(s: Sched, n: nat)
    requires OnceInv(s)
    ensures OnceInv(NextTimes(s, n))
  {
    if n > 0 {
      OnceNextTimes(s, n - 1);
      OnceNext(NextTimes(s, n - 1));
    }
  }

  lemma OnceFire(s: Sched)
    requires OnceInv(s) && Due(s)
    ensures OnceInv(Fire(s))
  {
    var f := Firing(s.timer.value.task, s.timer.value.armedAt, s.now);
    assert Tasks(s.fired + [f]) == Tasks(s.fired) + [f.task];
    forall i | 0 <= i < |s.fired| ensures Tasks(s.fired)[i] < f.task { assert s.fired[i] in s.fired; }
  }

  lemma {:induction false} OnceRun(s: Sched, es: seq<Event>)
    requires OnceInv(s) && NeverResets(es)
    ensures OnceInv(Exec(s, es)) && Exec(s, es).delays == s.delays
    decreases |es|
  {
    if es != [] {
      var init, e := es[..|es| - 1], es[|es| - 1];
      assert forall x :: x in init ==> x in es;
      OnceRun(s, init);
      var t := Exec(s, init);
      assert e in es;
      match e
      case ScheduleNext => OnceNext(t);
      case Execute(now, rearm) =>
        if Due(t.(now := now)) {
          OnceFire(t.(now := now));
          OnceNextTimes(Fire(t.(now := now)), rearm);
          SameDelays(Fire(t.(now := now)), rearm);
        }
      case SetCyclic(_) =>
    }
  }

  lemma {:induction false} SameDelays(s: Sched, n: nat)
    ensures NextTimes(s, n).delays == s.delays && NextTimes(s, n).fired == s.fired && NextTimes(s, n).now == s.now
    ensures NextTimes(s, n).cyclic == s.cyclic
  {
    if n > 0 {
      SameDelays(s, n - 1);
    }
  }

  /** Whatever schedules and runs tasks, also from inside actions: tasks fire in list
      order, none twice, and none earlier than its delay after it was armed. */
  lemma FiresInOrderAndOnTime(delays: seq<int>, es: seq<Event>)
    requires NeverResets(es)
    ensures var s := Exec(New(delays), es);
            && Increasing(Tasks(s.fired))
            && forall f :: f in s.fired ==> f.task < |delays| && f.armedAt + delays[f.task] <= f.at
  {
    OnceRun(New(delays), es);
  }

  /** The next task is only ever scheduled when no alarm is pending. */
  ghost predicate RearmsWhenIdle(s: Sched, es: seq<Event>)
    decreases |es|
  {
    es == [] ||
    var t := Exec(s, es[..|es| - 1]);
    && RearmsWhenIdle(s, es[..|es| - 1])
    && match es[|es| - 1]
       case ScheduleNext => t.timer.None?
       case Execute(_, rearm) => rearm <= 1
       case Reset => false
       case SetCyclic(enabled) => !enabled
  }

  function Pending(s: Sched): nat { if s.timer.Some? then 1 else 0 }

  ghost predicate PrefixInv(s: Sched)
  {
    && !s.cyclic && s.next <= |s.delays|
    && |s.fired| + Pending(s) == s.next
    && (s.timer.Some? ==> s.timer.value.task == |s.fired|)
    && (forall i :: 0 <= i < |s.fired| ==> s.fired[i].task == i)
  }

  lemma {:induction false} PrefixRun(s: Sched, es: seq<Event>)
    requires PrefixInv(s) && RearmsWhenIdle(s, es)
    ensures PrefixInv(Exec(s, es)) && Exec(s, es).delays == s.delays
    decreases |es|
  {
    if es != [] {
      PrefixRun(s, es[..|es| - 1]);
      var t := Exec(s, es[..|es| - 1]);
      match es[|es| - 1]
      case ScheduleNext =>
      case Execute(now, rearm) =>
        var u := t.(now := now);
        if Due(u) {
          assert NextTimes(Fire(u), 0) == Fire(u);
          assert rearm == 1 ==> NextTimes(Fire(u), 1) == Next(Fire(u));
        }
      case SetCyclic(_) =>
    }
  }

  /** If the next task is scheduled only when the timer is idle, no task is skipped, and
      every task is fired, pending or still ahead. */
  lemma FiresAPrefix(delays: seq<int>, es: seq<Event>)
    requires RearmsWhenIdle(New(delays), es)
    ensures var s := Exec(New(delays), es);
            && (forall i :: 0 <= i < |s.fired| ==> s.fired[i].task == i)
            && s.next <= |delays|
            && |s.fired| + Pending(s) + (|delays| - s.next) == |delays|
  {
    PrefixRun(New(delays), es);
  }

  // -------------------------------------------------------------- going in circles

  function NextWrappingTimes(s: Sched, n: nat): (r: Sched)
    requires s.next < |s.delays|
    ensures r.next < |r.delays| && r.delays == s.delays
  {
    if n == 0 then s else NextWrapping(NextWrappingTimes(s, n - 1))
  }

  /** The same events on the schedule that always wraps; it has no cyclic switch. */
  function ApplyWrapping(s: Sched, e: Event): (r: Sched)
    requires s.next < |s.delays|
    ensures r.next < |r.delays| && r.delays == s.delays
  {
    match e
    case ScheduleNext => NextWrapping(s)
    case Execute(now, rearm) =>
      var t := s.(now := now);
      if Due(t) then NextWrappingTimes(Fire(t), rearm) else t
    case Reset => NextWrapping(s.(next := 0))
    case SetCyclic(_) => s
  }

  function ExecWrapping(s: Sched, es: seq<Event>): (r: Sched)
    requires s.next < |s.delays|
    ensures r.next < |r.delays| && r.delays == s.delays
  {
    if es == [] then s else ApplyWrapping(ExecWrapping(s, es[..|es| - 1]), es[|es| - 1])
  }

  function NewWrapping(delays: seq<int>): (r: Sched)
    requires |delays| > 0
    ensures r.next < |r.delays| && r.delays == delays
  {
    NextWrapping(Empty(delays))
  }

  /** The schedule that always wraps, updated in place. Its list must not be empty. */
  class WrappingSchedule {
    const timer: Timer
    var delays: seq<int>
    var next: nat
    var now: int
    ghost var armedAt: int
    ghost var armed: seq<nat>
    ghost var fired: seq<Firing>

    ghost function Model(): Sched
      reads this, timer
    {
      Sched(delays, next, now, false,
            if timer.isActive then Some(Alarm(timer.action, armedAt, timer.timeOut)) else None, armed, fired)
    }

    constructor (tasks: seq<int>)
      requires |tasks| > 0
      ensures fresh(timer) && Model() == NewWrapping(tasks)
    {
      timer := new Timer();
      delays, next, now := tasks, 0, 0;
      armedAt, armed, fired := 0, [], [];
      new;
      ResetSchedule();
    }

    method ResetSchedule()
      requires |delays| > 0
      modifies this, timer
      ensures Model() == NextWrapping(old(Model()).(next := 0))
      ensures timer.isActive && timer.action == 0 && timer.timeOut == now + delays[0]
    {
      next := 0;
      ScheduleNextTask();
    }

    method ScheduleNextTask()
      requires next < |delays|
      modifies this, timer
      ensures Model() == NextWrapping(old(Model())) && now == old(now) && delays == old(delays)
      ensures timer.isActive && timer.action == old(next) && timer.timeOut == now + delays[old(next)]
      ensures next == if old(next) + 1 == |delays| then 0 else old(next) + 1
    {
      var current := next;
      next := next + 1;
      if next == |delays| {
        next := 0;
      }
      timer.Set(now + delays[current], current);
      armedAt, armed := now, armed + [current];
    }

    /** `rearm` stands for what the action does. */
    method ExecuteTask(now: int, rearm: nat)
      requires next < |delays|
      modifies this, timer
      ensures Model() == ApplyWrapping(old(Model()), Execute(now, rearm))
      ensures this.now == now && delays == old(delays)
    {
      this.now := now;
      var ran := timer.ExecuteAction(now);
      if ran.Some? {
        fired := fired + [Firing(ran.value, armedAt, now)];
        ghost var base := Model();
        for i := 0 to rearm
          invariant Model() == NextWrappingTimes(base, i)
          invariant this.now == now && delays == old(delays)
        {
          ScheduleNextTask();
        }
      }
    }
  }

  /** The two schedules agree on everything but the switch that one of them lacks. */
  predicate Agree(cyclic: Sched, wrapping: Sched)
  {
    cyclic.cyclic && cyclic == wrapping.(cyclic := true)
  }

  predicate NoSwitch(es: seq<Event>)
  {
    forall e :: e in es ==> !e.SetCyclic?
  }

  lemma {:induction false} AgreeTimes(s: Sched, t: Sched, n: nat)
    requires Agree(s, t) && t.next < |t.delays|
    ensures Agree(NextTimes(s, n), NextWrappingTimes(t, n))
  {
    if n > 0 {
      AgreeTimes(s, t, n - 1);
    }
  }

  lemma {:induction false} AgreeRun(s: Sched, t: Sched, es: seq<Event>)
    requires Agree(s, t) && t.next < |t.delays| && NoSwitch(es)
    ensures Agree(Exec(s, es), ExecWrapping(t, es))
    decreases |es|
  {
    if es != [] {
      var init, e := es[..|es| - 1], es[|es| - 1];
      assert forall x :: x in init ==> x in es;
      AgreeRun(s, t, init);
      assert e in es;
      if e.Execute? {
        var u, v := Exec(s, init).(now := e.now), ExecWrapping(t, init).(now := e.now);
        if Due(u) { AgreeTimes(Fire(u), Fire(v), e.rearm); }
      }
    }
  }

  /** Switching to cyclic mode after construction. */
  function NewCyclic(delays: seq<int>): Sched
  {
    Apply(New(delays), SetCyclic(true))
  }

  /** No observer can tell the two apart: same alarm, same armings, same firings. */
  predicate SameBehaviour(s: Sched, t: Sched)
  {
    s.timer == t.timer && s.armed == t.armed && s.fired == t.fired
  }

  /** The cyclic schedule and the wrapping one behave the same under all events, if and
      only if the list has at least two tasks. */
  lemma CyclicEqualsWrapping(delays: seq<int>)
    requires |delays| > 0
    ensures |delays| >= 2 <==>
            forall es :: NoSwitch(es) ==>
              SameBehaviour(Exec(NewCyclic(delays), es), ExecWrapping(NewWrapping(delays), es))
  {
    if |delays| >= 2 {
      forall es | NoSwitch(es)
        ensures SameBehaviour(Exec(NewCyclic(delays), es), ExecWrapping(NewWrapping(delays), es))
      {
        AgreeRun(NewCyclic(delays), NewWrapping(delays), es);
      }
    } else {
      // after construction the cursor of a one-task list is already past the end
      var es := [ScheduleNext];
      assert es[..0] == [] && NoSwitch(es);
      assert Exec(NewCyclic(delays), es).armed == [0];
      assert ExecWrapping(NewWrapping(delays), es).armed == [0, 0];
    }
  }

  /** A reset after the switch repairs the one-task list, too. */
  lemma CyclicAfterResetEqualsWrapping(delays: seq<int>, es: seq<Event>)
    requires |delays| > 0 && NoSwitch(es)
    ensures Agree(Exec(Apply(NewCyclic(delays), Reset), es),
                  ExecWrapping(ApplyWrapping(NewWrapping(delays), Reset), es))
  {
    AgreeRun(Apply(NewCyclic(delays), Reset), ApplyWrapping(NewWrapping(delays), Reset), es);
  }

  predicate NeverRewinds(es: seq<Event>)
  {
    forall e :: e in es ==> !e.SetCyclic? && e != Reset
  }

  ghost predicate RoundRobin(s: Sched)
  {
    && |s.delays| > 0 && s.next == |s.armed| % |s.delays|
    && forall k :: 0 <= k < |s.armed| ==> s.armed[k] == k % |s.delays|
  }

  lemma RoundRobinNext(s: Sched)
    requires RoundRobin(s)
    ensures s.next < |s.delays| && RoundRobin(NextWrapping(s))
  {
    ModSuccessor(|s.armed|, |s.delays|);
  }

  lemma {:induction false} RoundRobinTimes(s: Sched, n: nat)
    requires RoundRobin(s) && s.next < |s.delays|
    ensures RoundRobin(NextWrappingTimes(s, n))
  {
    if n > 0 {
      RoundRobinTimes(s, n - 1);
      RoundRobinNext(NextWrappingTimes(s, n - 1));
    }
  }

  /** Without a reset, the k-th armed task of the wrapping schedule is task k mod n. */
  lemma {:induction false} WrappingIsRoundRobin(delays: seq<int>, es: seq<Event>)
    requires |delays| > 0 && NeverRewinds(es)
    ensures RoundRobin(ExecWrapping(NewWrapping(delays), es))
    decreases |es|
  {
    if es == [] {
      assert RoundRobin(Empty(delays));
      RoundRobinNext(Empty(delays));
    } else {
      var init, e := es[..|es| - 1], es[|es| - 1];
      assert forall x :: x in init ==> x in es;
      WrappingIsRoundRobin(delays, init);
      assert e in es;
      var t := ExecWrapping(NewWrapping(delays), init);
      if e.ScheduleNext? {
        RoundRobinNext(t);
      } else if Due(t.(now := e.now)) {
        RoundRobinTimes(Fire(t.(now := e.now)), e.rearm);
      }
    }
  }
}
