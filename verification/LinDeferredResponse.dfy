/** The deferred LIN response: a master that sends the next header only after the previous
    response, and a slave that answers a header stamped t in its step at t + 2 ms and then
    resets its stamp to 0. Times are milliseconds, steps are 1 ms apart. */
module LinDeferredResponse {
  import opened Wrappers

  /** `first` is the time of the master's first step; `header` and `response` are in flight. */
  datatype State = State(
    first: nat, masterTime: nat, slaveTime: nat, sending: bool, headerReceived: nat,
    header: Option<nat>, response: bool, sentTimes: seq<nat>, responseTimes: seq<nat>)

  datatype Event = MasterStep | SlaveStep | DeliverHeader | DeliverResponse

  function Start(first: nat): State
  {
    State(first, first, 0, true, 0, None, false, [], [])
  }

  /** The delivery assumption: a header stamped t reaches the slave before its step at t + 2.
      So the slave waits for a header in flight, and for the first header, and a header is
      not sent with a stamp that it could no longer be delivered for. */
  predicate Enabled(s: State, e: Event)
  {
    match e
    case MasterStep => s.sending ==> s.slaveTime <= s.masterTime + 2
    case SlaveStep =>
      && (s.header.Some? ==> s.slaveTime < s.header.value + 2)
      && (s.sentTimes == [] ==> s.slaveTime < s.first + 2)
    case DeliverHeader => s.header.Some?
    case DeliverResponse => s.response
  }

  function Apply(s: State, e: Event): State
    requires Enabled(s, e)
  {
    match e
    case MasterStep =>
      var t := s.(masterTime := s.masterTime + 1);
      if !s.sending then t
      else t.(header := Some(s.masterTime), sentTimes := s.sentTimes + [s.masterTime], sending := false)
    case SlaveStep =>
      var t := s.(slaveTime := s.slaveTime + 1);
      if s.slaveTime != s.headerReceived + 2 then t
      else t.(response := true, responseTimes := s.responseTimes + [s.slaveTime], headerReceived := 0)
    case DeliverHeader => s.(headerReceived := s.header.value, header := None)
    case DeliverResponse => s.(sending := true, response := false)
  }

  predicate ValidRun(s: State, es: seq<Event>)
    decreases |es|
  {
    es == [] || (Enabled(s, es[0]) && ValidRun(Apply(s, es[0]), es[1..]))
  }

  function Exec(s: State, es: seq<Event>): State
    requires ValidRun(s, es)
    decreases |es|
  {
    if es == [] then s else Exec(Apply(s, es[0]), es[1..])
  }

  /** Headers and responses alternate, and each header is answered exactly two ms later. */
  predicate Answered(s: State)
  {
    && (|s.sentTimes| == |s.responseTimes| || |s.sentTimes| == |s.responseTimes| + 1)
    && (forall i :: 0 <= i < |s.responseTimes| ==> s.responseTimes[i] == s.sentTimes[i] + 2)
    && (forall i :: 0 <= i < |s.responseTimes| && i + 1 < |s.sentTimes| ==> s.sentTimes[i] < s.sentTimes[i + 1])
  }

  /** The open exchange, if any, is at exactly one of: to be sent, header in flight, header
      received, response in flight. */
  ghost predicate Inv(s: State)
  {
    && s.first == 0 && Answered(s)
    && (s.sentTimes == [] ==> s.slaveTime <= 2 && s.masterTime == 0 && s.sending)
    && (s.sentTimes != [] ==> s.sentTimes[0] == 0 && s.sentTimes[|s.sentTimes| - 1] < s.masterTime)
    && (s.responseTimes != [] ==> s.slaveTime > s.responseTimes[|s.responseTimes| - 1])
    && if |s.sentTimes| == |s.responseTimes| then
         && s.header.None? && s.headerReceived == 0 && s.sending == !s.response
         && (s.sentTimes != [] ==> s.slaveTime >= 3)
       else
         var open := s.sentTimes[|s.sentTimes| - 1];
         && !s.sending && !s.response && s.slaveTime <= open + 2
         && (if s.header.Some? then s.header == Some(open) && s.headerReceived == 0 else s.headerReceived == open)
         && (s.responseTimes != [] ==> s.slaveTime >= 3)
         && (s.responseTimes == [] ==> open == 0)
  }

  lemma Preserve(s: State, e: Event)
    requires Inv(s) && Enabled(s, e)
    ensures Inv(Apply(s, e))
  {
  }

  lemma {:induction false} RunInv(s: State, es: seq<Event>)
    requires Inv(s) && ValidRun(s, es)
    ensures Inv(Exec(s, es))
    decreases |es|
  {
    if es != [] {
      Preserve(s, es[0]);
      RunInv(Apply(s, es[0]), es[1..]);
    }
  }

  lemma Prepend(s: State, e: Event, es: seq<Event>)
    requires Enabled(s, e) && ValidRun(Apply(s, e), es)
    ensures ValidRun(s, [e] + es) && Exec(s, [e] + es) == Exec(Apply(s, e), es)
  {
    assert ([e] + es)[1..] == es;
  }

  /** Every header is answered exactly once, two ms after its stamp, and the reset stamp
      causes no further response: in all runs, if and only if the first header is stamped 0. */
  lemma AnsweredIffFirstHeaderAtZero(first: nat)
    ensures first == 0 <==> forall es :: ValidRun(Start(first), es) ==> Answered(Exec(Start(first), es))
  {
    if first == 0 {
      forall es | ValidRun(Start(first), es) ensures Answered(Exec(Start(first), es)) { RunInv(Start(first), es); }
    } else {
      // the slave reaches 2 ms before the first header and takes the initial stamp for one
      var s1, s2 := Start(first).(slaveTime := 1), Start(first).(slaveTime := 2);
      assert [SlaveStep][1..] == [];
      assert ValidRun(s2, [SlaveStep]) && Exec(s2, [SlaveStep]).responseTimes == [2];
      Prepend(s1, SlaveStep, [SlaveStep]);
      Prepend(Start(first), SlaveStep, [SlaveStep] + [SlaveStep]);
    }
  }

  /** Nothing is lost on the way: an unanswered header is in flight or known to the slave,
      and an answered one is either on its way back or has let the master send again. */
  lemma ExchangeIsSomewhere(es: seq<Event>)
    requires ValidRun(Start(0), es)
    ensures Answered(Exec(Start(0), es))
    ensures var s := Exec(Start(0), es);
            if |s.sentTimes| == |s.responseTimes| then s.sending != s.response && s.header.None?
            else var open := s.sentTimes[|s.responseTimes|];
                 && !s.sending && !s.response && s.slaveTime <= open + 2
                 && (s.header == Some(open) || s.headerReceived == open)
  {
    RunInv(Start(0), es);
  }

  /** A master that may send does so in its next step, with that step's time, and a slave
      answers in the step two ms after the stamp it holds; other steps only pass the time. */
  lemma StepsAct(s: State)
    ensures Enabled(s, MasterStep) ==>
              var t := Apply(s, MasterStep);
              && !t.sending && t.masterTime == s.masterTime + 1
              && (if s.sending then t.header == Some(s.masterTime) && t.sentTimes == s.sentTimes + [s.masterTime]
                  else t == s.(masterTime := s.masterTime + 1))
    ensures Enabled(s, SlaveStep) ==>
              var t := Apply(s, SlaveStep);
              && t.slaveTime == s.slaveTime + 1
              && (if s.slaveTime == s.headerReceived + 2
                  then t.response && t.responseTimes == s.responseTimes + [s.slaveTime] && t.headerReceived == 0
                  else t == s.(slaveTime := s.slaveTime + 1))
  {
  }

  function Delivered(es: seq<Event>): nat
  {
    if es == [] then 0 else (if es[0].DeliverResponse? then 1 else 0) + Delivered(es[1..])
  }

  lemma {:induction false} SendsAgainCount(s: State, es: seq<Event>)
    requires ValidRun(s, es) && Inv(s)
    ensures var t := Exec(s, es);
            |t.sentTimes| + (if t.sending then 1 else 0) == |s.sentTimes| + (if s.sending then 1 else 0) + Delivered(es)
    decreases |es|
  {
    if es != [] {
      Preserve(s, es[0]);
      SendsAgainCount(Apply(s, es[0]), es[1..]);
    }
  }

  /** The master sends one header at first and one per response it gets, and no more; after
      each of its steps it has sent all it may. */
  lemma OneHeaderPerResponse(es: seq<Event>)
    requires ValidRun(Start(0), es)
    ensures var s := Exec(Start(0), es);
            && |s.sentTimes| == 1 + Delivered(es) - (if s.sending then 1 else 0)
            && (Enabled(s, MasterStep) ==> |Apply(s, MasterStep).sentTimes| == 1 + Delivered(es))
  {
    SendsAgainCount(Start(0), es);
    StepsAct(Exec(Start(0), es));
  }
}
