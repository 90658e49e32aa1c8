/** When a remote procedure call times out: exactly at the first tick at which the durations
    since the call add up to its timeout, if it is still active then. Also, what the logs of
    arguments and results hold, in terms of the events of the run. */
module RpcTimers {
  import opened Wrappers
  import opened RpcCalls
  import opened RpcCallsTheorems

  /** What is known of one call from the events alone. */
  datatype Timer = Timer(timeout: Option<int>, elapsed: int, ticks: nat, due: bool)

  function Age(t: Timer, d: int): Timer
  {
    Timer(t.timeout, t.elapsed + d, t.ticks + 1, t.due || (t.timeout.Some? && t.elapsed + d >= t.timeout.value))
  }

  function Aged(ts: seq<Timer>, d: int): (r: seq<Timer>)
    ensures |r| == |ts|
  {
    seq(|ts|, c requires 0 <= c < |ts| => Age(ts[c], d))
  }

  function After(s: State, ts: seq<Timer>, e: Event): seq<Timer>
  {
    match e
    case Call(_, timeout) => if Counterparts(s.links) == 0 then ts else ts + [Timer(timeout, 0, 0, false)]
    case Elapse(d) => Aged(ts, d)
    case _ => ts
  }

  function Timers(s: State, ts: seq<Timer>, es: seq<Event>): seq<Timer>
    requires ValidRun(s, es)
    decreases |es|
  {
    if es == [] then ts else Timers(Apply(s, es[0]), After(s, ts, es[0]), es[1..])
  }

  // -------------------------------------------------------------------- queued entries

  predicate IsQueued(t: Timer)
  {
    t.timeout.Some? && !t.due
  }

  predicate BecomesDue(t: Timer, d: int)
  {
    IsQueued(t) && t.elapsed + d >= t.timeout.value
  }

  /** The entries that ought to be queued, in the order of the calls. */
  function EntriesOf(ts: seq<Timer>): seq<Entry>
  {
    if ts == [] then []
    else
      var n := |ts| - 1;
      var before := EntriesOf(ts[..n]);
      if IsQueued(ts[n]) then before + [Entry(ts[n].timeout.value - ts[n].elapsed, n)] else before
  }

  /** The calls that become due by a tick of `d`, in order. */
  function DueCalls(ts: seq<Timer>, d: int): seq<nat>
  {
    if ts == [] then []
    else
      var n := |ts| - 1;
      var before := DueCalls(ts[..n], d);
      if BecomesDue(ts[n], d) then before + [n] else before
  }

  lemma {:induction false} ExpiredSnoc(entries: seq<Entry>, e: Entry, d: int)
    ensures Expired(entries + [e], d) == if e.left - d <= 0 then Expired(entries, d) + [e.call] else Expired(entries, d)
  {
    if entries == [] {
      assert entries + [e] == [e] && [e][1..] == [];
      assert Expired([], d) == [];
    } else {
      assert (entries + [e])[1..] == entries[1..] + [e] && (entries + [e])[0] == entries[0];
      ExpiredSnoc(entries[1..], e, d);
    }
  }

  lemma {:induction false} KeptSnoc(entries: seq<Entry>, e: Entry, d: int)
    ensures Kept(entries + [e], d) ==
              if e.left - d <= 0 then Kept(entries, d) else Kept(entries, d) + [Entry(e.left - d, e.call)]
  {
    if entries == [] {
      assert entries + [e] == [e] && [e][1..] == [];
      assert Kept([], d) == [];
    } else {
      assert (entries + [e])[1..] == entries[1..] + [e] && (entries + [e])[0] == entries[0];
      KeptSnoc(entries[1..], e, d);
    }
  }

  /** A tick takes exactly the due calls out of the queue ... */
  lemma {:induction false} TickExpires(ts: seq<Timer>, d: int)
    ensures Expired(EntriesOf(ts), d) == DueCalls(ts, d)
  {
    if ts != [] {
      var n := |ts| - 1;
      TickExpires(ts[..n], d);
      if IsQueued(ts[n]) {
        ExpiredSnoc(EntriesOf(ts[..n]), Entry(ts[n].timeout.value - ts[n].elapsed, n), d);
      }
    }
  }

  /** ... and counts the others down. */
  lemma {:induction false} TickKeeps(ts: seq<Timer>, d: int)
    ensures Kept(EntriesOf(ts), d) == EntriesOf(Aged(ts, d))
  {
    if ts != [] {
      var n := |ts| - 1;
      TickKeeps(ts[..n], d);
      var aged := Aged(ts, d);
      assert aged[..n] == Aged(ts[..n], d) && aged[n] == Age(ts[n], d);
      if IsQueued(ts[n]) {
        KeptSnoc(EntriesOf(ts[..n]), Entry(ts[n].timeout.value - ts[n].elapsed, n), d);
      }
    }
  }

  lemma {:induction false} EntriesIn(ts: seq<Timer>, l: int, c: nat)
    ensures Entry(l, c) in EntriesOf(ts) <==> c < |ts| && IsQueued(ts[c]) && l == ts[c].timeout.value - ts[c].elapsed
    decreases |ts|
  {
    if ts != [] {
      EntriesIn(ts[..|ts| - 1], l, c);
    }
  }

  lemma {:induction false} DueIn(ts: seq<Timer>, d: int, c: nat)
    ensures c in DueCalls(ts, d) <==> c < |ts| && BecomesDue(ts[c], d)
    decreases |ts|
  {
    if ts != [] {
      DueIn(ts[..|ts| - 1], d, c);
    }
  }

  // ------------------------------------------------------------------------- all runs

  lemma {:induction false} TimeOutAllKeepsEntries(client: Client, calls: seq<nat>)
    ensures TimeOutAll(client, calls).entries == client.entries
    decreases |calls|
  {
    if calls != [] {
      TimeOutAllKeepsEntries(TimeOut(client, calls[0]), calls[1..]);
    }
  }

  ghost predicate Tracks(s: State, ts: seq<Timer>)
  {
    |ts| == |s.arguments| && s.client.entries == EntriesOf(ts)
  }

  lemma TracksEvent(s: State, ts: seq<Timer>, e: Event)
    requires Tracks(s, ts) && Enabled(s, e)
    ensures Tracks(Apply(s, e), After(s, ts, e))
  {
    match e
    case Elapse(d) =>
      TickKeeps(ts, d);
      TimeOutAllKeepsEntries(s.client.(entries := Kept(s.client.entries, d)), Expired(s.client.entries, d));
    case Call(_, timeout) =>
      var ts' := ts + [Timer(timeout, 0, 0, false)];
      assert ts'[..|ts|] == ts;
    case _ =>
  }

  lemma {:induction false} TracksRun(s: State, ts: seq<Timer>, es: seq<Event>)
    requires Tracks(s, ts) && ValidRun(s, es)
    ensures Tracks(Exec(s, es), Timers(s, ts, es))
    decreases |es|
  {
    if es != [] {
      TracksEvent(s, ts, es[0]);
      TracksRun(Apply(s, es[0]), After(s, ts, es[0]), es[1..]);
    }
  }

  /** In every run the queue holds exactly the calls with a timeout that were not yet found
      due, in the order of the calls, each with what is left of its timeout. */
  lemma QueueIsExact(es: seq<Event>)
    requires ValidRun(Start(), es)
    ensures Exec(Start(), es).client.entries == EntriesOf(Timers(Start(), [], es))
    ensures |Timers(Start(), [], es)| == |Exec(Start(), es).arguments|
  {
    TracksRun(Start(), [], es);
  }

  // ------------------------------------------------------------------------- one tick

  /** The timeouts of those of the calls that are active, in order. */
  function TimeoutsOf(calls: seq<nat>, active: map<nat, int>): seq<Report>
  {
    if calls == [] then []
    else (if calls[0] in active then [Timeout(calls[0])] else []) + TimeoutsOf(calls[1..], active)
  }

  predicate Ascending(calls: seq<nat>)
  {
    forall i, j :: 0 <= i < j < |calls| ==> calls[i] < calls[j]
  }

  lemma {:induction false} DueAscending(ts: seq<Timer>, d: int)
    ensures Ascending(DueCalls(ts, d)) && forall i :: 0 <= i < |DueCalls(ts, d)| ==> DueCalls(ts, d)[i] < |ts|
  {
    if ts != [] {
      DueAscending(ts[..|ts| - 1], d);
    }
  }

  lemma {:induction false} TimeoutsWithout(calls: seq<nat>, active: map<nat, int>, c: nat)
    requires c !in calls
    ensures TimeoutsOf(calls, active - {c}) == TimeoutsOf(calls, active)
    decreases |calls|
  {
    if calls != [] {
      assert calls[0] in calls && forall x :: x in calls[1..] ==> x in calls;
      TimeoutsWithout(calls[1..], active, c);
    }
  }

  lemma {:induction false} TimeOutAllLogs(client: Client, calls: seq<nat>)
    requires Ascending(calls)
    ensures TimeOutAll(client, calls).log == client.log + TimeoutsOf(calls, client.active)
    decreases |calls|
  {
    if calls != [] {
      var rest := calls[1..];
      assert forall i :: 0 <= i < |rest| ==> rest[i] == calls[i + 1];
      TimeOutAllLogs(TimeOut(client, calls[0]), rest);
      if calls[0] in client.active {
        TimeoutsWithout(rest, client.active, calls[0]);
      }
    }
  }

  /** In every run a tick reports exactly the timeouts of the calls that become due by it and
      are still active, in the order of the calls. */
  lemma TickReportsExactly(es: seq<Event>, d: int)
    requires ValidRun(Start(), es)
    ensures var s, ts := Exec(Start(), es), Timers(Start(), [], es);
            Apply(s, Elapse(d)).client.log == s.client.log + TimeoutsOf(DueCalls(ts, d), s.client.active)
  {
    var s, ts := Exec(Start(), es), Timers(Start(), [], es);
    QueueIsExact(es);
    TickExpires(ts, d);
    DueAscending(ts, d);
    TimeOutAllLogs(s.client.(entries := Kept(s.client.entries, d)), DueCalls(ts, d));
  }

  // ------------------------------------------------------------- in terms of the run alone

  /** The sum of the durations that elapse in a run, and their number. */
  function Durations(es: seq<Event>): int
  {
    if es == [] then 0 else (if es[0].Elapse? then es[0].duration else 0) + Durations(es[1..])
  }

  function Ticks(es: seq<Event>): nat
  {
    if es == [] then 0 else (if es[0].Elapse? then 1 else 0) + Ticks(es[1..])
  }

  predicate Forward(es: seq<Event>)
  {
    forall i :: 0 <= i < |es| && es[i].Elapse? ==> es[i].duration >= 0
  }

  /** A call with timeout `t` is due once a tick has found its durations to add up to `t`. */
  predicate TimerIs(timer: Timer, t: int, durations: int, ticks: nat)
  {
    && timer.timeout == Some(t) && timer.elapsed == durations && timer.ticks == ticks
    && (timer.due <==> ticks > 0 && durations >= t)
  }

  lemma {:induction false} TimerRuns(s: State, ts: seq<Timer>, es: seq<Event>, c: nat, t: int, durations: int,
                                     ticks: nat)
    requires ValidRun(s, es) && Forward(es) && c < |ts| && TimerIs(ts[c], t, durations, ticks)
    ensures c < |Timers(s, ts, es)|
    ensures TimerIs(Timers(s, ts, es)[c], t, durations + Durations(es), ticks + Ticks(es))
    decreases |es|
  {
    if es != [] {
      var e, ts' := es[0], After(s, ts, es[0]);
      var d := if e.Elapse? then e.duration else 0;
      assert TimerIs(ts'[c], t, durations + d, ticks + if e.Elapse? then 1 else 0);
      TimerRuns(Apply(s, e), ts', es[1..], c, t, durations + d, ticks + if e.Elapse? then 1 else 0);
    }
  }

  lemma {:induction false} RunsTogether(s: State, ts: seq<Timer>, before: seq<Event>, after: seq<Event>)
    requires ValidRun(s, before) && ValidRun(Exec(s, before), after)
    ensures ValidRun(s, before + after) && Exec(s, before + after) == Exec(Exec(s, before), after)
    ensures Timers(s, ts, before + after) == Timers(Exec(s, before), Timers(s, ts, before), after)
    decreases |before|
  {
    if before == [] {
      assert before + after == after;
    } else {
      assert (before + after)[1..] == before[1..] + after;
      RunsTogether(Apply(s, before[0]), After(s, ts, before[0]), before[1..], after);
    }
  }

  /** The timer of a call, a while after it was made. */
  lemma CallTimer(before: seq<Event>, data: Data, t: int, after: seq<Event>)
    requires ValidRun(Start(), before) && Counterparts(Exec(Start(), before).links) > 0
    requires ValidRun(Apply(Exec(Start(), before), Call(data, Some(t))), after) && Forward(after)
    ensures var es, c := before + ([Call(data, Some(t))] + after), |Exec(Start(), before).arguments|;
            && ValidRun(Start(), es)
            && Exec(Start(), es) == Exec(Apply(Exec(Start(), before), Call(data, Some(t))), after)
            && c < |Timers(Start(), [], es)|
            && TimerIs(Timers(Start(), [], es)[c], t, Durations(after), Ticks(after))
  {
    var s, ts, e := Exec(Start(), before), Timers(Start(), [], before), Call(data, Some(t));
    QueueIsExact(before);
    assert ([e] + after)[1..] == after;
    RunsTogether(Start(), [], before, [e] + after);
    var ts' := ts + [Timer(Some(t), 0, 0, false)];
    TimerRuns(Apply(s, e), ts', after, |ts|, t, 0, 0);
  }

  /** In every run, a while after a call with timeout `t`: its entry is queued if and only if
      no tick has found the durations since the call to add up to `t`, and then it holds what
      is left of `t`; and the next tick reports its timeout if and only if it finds that for
      the first time and the call is still active. */
  lemma TimesOutExactly(before: seq<Event>, data: Data, t: int, after: seq<Event>, d: nat)
    requires ValidRun(Start(), before) && Counterparts(Exec(Start(), before).links) > 0
    requires ValidRun(Apply(Exec(Start(), before), Call(data, Some(t))), after) && Forward(after)
    ensures var c := |Exec(Start(), before).arguments|;
            var s := Exec(Apply(Exec(Start(), before), Call(data, Some(t))), after);
            var waiting := Ticks(after) == 0 || Durations(after) < t;
            && (forall l :: Entry(l, c) in s.client.entries <==> waiting && l == t - Durations(after))
            && (Timeout(c) !in s.client.log && Timeout(c) in Apply(s, Elapse(d)).client.log
                <==> waiting && Durations(after) + d >= t && c in s.client.active)
  {
    var es, c := before + ([Call(data, Some(t))] + after), |Exec(Start(), before).arguments|;
    CallTimer(before, data, t, after);
    var s, ts := Exec(Start(), es), Timers(Start(), [], es);
    QueueIsExact(es);
    forall l ensures Entry(l, c) in EntriesOf(ts) <==> IsQueued(ts[c]) && l == t - Durations(after) {
      EntriesIn(ts, l, c);
    }
    TickReportsExactly(es, d);
    DueIn(ts, d, c);
    TimeoutsIn(DueCalls(ts, d), s.client.active, c);
    ActiveNotTimedOut(es, c);
  }

  lemma {:induction false} TimeoutsIn(calls: seq<nat>, active: map<nat, int>, c: nat)
    ensures Timeout(c) in TimeoutsOf(calls, active) <==> c in calls && c in active
    decreases |calls|
  {
    if calls != [] {
      TimeoutsIn(calls[1..], active, c);
    }
  }

  lemma ActiveNotTimedOut(es: seq<Event>, c: nat)
    requires ValidRun(Start(), es) && c < |Exec(Start(), es).arguments|
    ensures c in Exec(Start(), es).client.active ==> Timeout(c) !in Exec(Start(), es).client.log
  {
    RemembersExactly(es, c);
  }

  // ---------------------------------------------------------------- arguments and results

  /** The arguments of the calls that found a server. */
  function ArgumentsOf(s: State, es: seq<Event>): seq<Data>
    requires ValidRun(s, es)
    decreases |es|
  {
    if es == [] then []
    else (if es[0].Call? && Counterparts(s.links) > 0 then [es[0].data] else []) + ArgumentsOf(Apply(s, es[0]), es[1..])
  }

  lemma {:induction false} ArgumentsAreCalled(s: State, es: seq<Event>)
    requires ValidRun(s, es)
    ensures Exec(s, es).arguments == s.arguments + ArgumentsOf(s, es)
    decreases |es|
  {
    if es != [] {
      ArgumentsAreCalled(Apply(s, es[0]), es[1..]);
    }
  }

  predicate Records(s: State, i: nat, c: nat, d: Option<Data>)
  {
    i < |s.links| && c in s.links[i].submitted && s.links[i].submitted[c] == d
  }

  lemma {:induction false} RecordedThen(s: State, es: seq<Event>, i: nat, c: nat, d: Option<Data>)
    requires ValidRun(s, es) && Records(Exec(s, es), i, c, d) && !Records(s, i, c, d)
    ensures if d.Some? then Submit(i, c, d.value) in es else Handle(i) in es
    decreases |es|
  {
    var s' := Apply(s, es[0]);
    assert es[0] in es && forall e :: e in es[1..] ==> e in es;
    if !Records(s', i, c, d) {
      RecordedThen(s', es[1..], i, c, d);
    }
  }

  /** A reported result carries what that server was told to submit for that call, and a
      reported error comes from a server that tried to handle it. */
  lemma ResultsAreSubmitted(es: seq<Event>, k: nat)
    requires ValidRun(Start(), es) && k < |Exec(Start(), es).client.log| && Exec(Start(), es).client.log[k].Result?
    ensures var r := Exec(Start(), es).client.log[k];
            if r.data.Some? then Submit(r.server, r.call, r.data.value) in es else Handle(r.server) in es
  {
    ReportsAreSound(es, k, k);
    var r := Exec(Start(), es).client.log[k];
    RecordedThen(Start(), es, r.server, r.call, r.data);
  }

  /** A server with a handler passes the call on to it and keeps it open; one without answers
      with an error at once. */
  lemma HandlingActs(s: State, i: nat)
    requires Inv(s) && Enabled(s, Handle(i))
    ensures var l, l' := s.links[i], Apply(s, Handle(i)).links[i];
            var m := l.requests[0];
            && l'.requests == l.requests[1..]
            && l'.pending == (if l.handler then l.pending + {m.call} else l.pending)
            && l'.handled == (if l.handler then l.handled[m.call := m.data] else l.handled)
            && l'.responses == (if l.handler then l.responses else l.responses + [Message(m.call, None)])
  {
    assert LinkOk(s.links[i], s.arguments);
    NextIsNew(s.links[i], s.arguments);
  }

  lemma HandlerIsSet(s: State, i: nat, handler: bool)
    requires i < |s.links|
    ensures Apply(s, SetHandler(i, handler)).links[i] == s.links[i].(handler := handler)
    ensures Apply(s, Register(handler)).links == s.links + [Registration(|s.arguments|, handler)]
    ensures Registration(|s.arguments|, handler).handler == handler
  {
  }
}
