/** The remote procedure call tests: a client that counts what its calls returned, and one
    client and one server over channels that keep the order. The server side counts and
    matches its arguments with the code of a subscriber, so it is modelled by `Sub`. */
module RpcHarness {
  import opened Arithmetic
  import opened Senders
  import opened PubSub

  const WORD: nat := 0x1_0000_0000

  /** What the server adds to every byte. */
  const INCREMENT: nat := 100

  // ------------------------------------------------------------ counting the returns

  datatype Outcome = Success(data: Data) | TimedOut | NotReachable

  datatype Client = Client(
    size: nat, toReturn: nat, toTimeout: nat, increasing: bool, expected: seq<Data>,
    successes: nat, timeouts: nat, allReturned: bool, misses: nat)

  function NewClient(size: nat, toReturn: nat, toTimeout: nat, increasing: bool, expected: seq<Data>): Client
  {
    Client(size, toReturn, toTimeout, increasing, expected, 0, 0, false, 0)
  }

  /** The sum of two 32-bit numbers is a 32-bit number. */
  function Target(c: Client): nat
  {
    (c.toReturn + c.toTimeout) % WORD
  }

  predicate Expects(c: Client, data: Data)
  {
    if c.increasing then data == Filled(c.size, c.successes + INCREMENT) else data in c.expected
  }

  function Ended(c: Client): Client
  {
    c.(allReturned := c.allReturned || (c.successes + c.timeouts) % WORD >= Target(c))
  }

  function OnOutcome(c: Client, o: Outcome): Client
  {
    if c.allReturned || o.NotReachable? then c
    else if o.TimedOut? then Ended(c.(timeouts := c.timeouts + 1))
    else
      Ended(c.(
        misses := if Expects(c, o.data) then c.misses else c.misses + 1,
        expected := if c.increasing then c.expected else Without(c.expected, o.data),
        successes := c.successes + 1))
  }

  function OnOutcomes(c: Client, os: seq<Outcome>): Client
  {
    if os == [] then c else OnOutcome(OnOutcomes(c, os[..|os| - 1]), os[|os| - 1])
  }

  /** The outcomes that are counted at all. */
  function Returns(os: seq<Outcome>): nat
  {
    if os == [] then 0 else Returns(os[..|os| - 1]) + if os[|os| - 1].NotReachable? then 0 else 1
  }

  /** After `n` counted outcomes. */
  predicate ReturnsCounted(c: Client, n: nat)
  {
    && c.successes + c.timeouts == Min(n, Effective(Target(c)))
    && (c.allReturned <==> n >= Effective(Target(c)))
  }

  lemma OutcomeCounted(c: Client, n: nat, o: Outcome)
    requires ReturnsCounted(c, n)
    ensures ReturnsCounted(OnOutcome(c, o), if o.NotReachable? then n else n + 1)
    ensures Target(OnOutcome(c, o)) == Target(c)
  {
    if !c.allReturned {
      var m := c.successes + c.timeouts + 1;
      assert m <= Effective(Target(c)) < WORD;
      assert m % WORD == m;
    }
  }

  /** Successes and timeouts together stop exactly at the target (at one, for a target of
      zero), and that is when the client reports that all calls returned. */
  lemma {:induction false} ReturnsStopAtTarget(c: Client, os: seq<Outcome>)
    requires c == NewClient(c.size, c.toReturn, c.toTimeout, c.increasing, c.expected)
    ensures var end, sum := OnOutcomes(c, os), (c.toReturn + c.toTimeout) % 0x1_0000_0000;
            var target := if sum == 0 then 1 else sum;
            && Target(end) == Target(c) && ReturnsCounted(end, Returns(os))
            && end.successes + end.timeouts == (if Returns(os) < target then Returns(os) else target)
            && (end.allReturned <==> Returns(os) >= target)
  {
    if os != [] {
      ReturnsStopAtTarget(c, os[..|os| - 1]);
      OutcomeCounted(OnOutcomes(c, os[..|os| - 1]), Returns(os[..|os| - 1]), os[|os| - 1]);
    }
  }

  /** `RpcClientState`, updated in place. */
  class ClientState {
    const size: nat
    const toReturn: nat
    const toTimeout: nat
    const increasing: bool
    var expected: seq<Data>
    var successes: nat
    var timeouts: nat
    var allReturned: bool
    ghost var misses: nat

    ghost function Model(): Client
      reads this
    {
      Client(size, toReturn, toTimeout, increasing, expected, successes, timeouts, allReturned, misses)
    }

    constructor (size: nat, toReturn: nat, toTimeout: nat, increasing: bool, expected: seq<Data>)
      ensures Model() == NewClient(size, toReturn, toTimeout, increasing, expected)
    {
      this.size, this.toReturn, this.toTimeout := size, toReturn, toTimeout;
      this.increasing, this.expected := increasing, expected;
      successes, timeouts, allReturned, misses := 0, 0, false, 0;
    }

    method OnReturn(o: Outcome) returns (ok: bool)
      modifies this
      ensures Model() == OnOutcome(old(Model()), o)
      ensures ok <==> misses == old(misses)
      ensures old(allReturned) || o.NotReachable? ==> ok && successes == old(successes) && timeouts == old(timeouts)
      ensures !old(allReturned) && o.TimedOut? ==> ok && successes == old(successes) && timeouts == old(timeouts) + 1
      ensures !old(allReturned) && o.Success? ==> successes == old(successes) + 1 && timeouts == old(timeouts)
    {
      ok := true;
      if !allReturned {
        if o.Success? {
          ok := OnCallReturned(o.data);
        }
        if o.TimedOut? {
          timeouts := timeouts + 1;
          CheckReturned();
        }
      }
    }

    method OnCallReturned(data: Data) returns (ok: bool)
      requires !allReturned
      modifies this
      ensures Model() == OnOutcome(old(Model()), Success(data))
      ensures ok <==> misses == old(misses)
      ensures ok <==> if increasing then Carries(data, size, old(successes) + 100) else data in old(expected)
    {
      FilledCarries(data, size, successes + 100);
      if increasing {
        ok := data == Filled(size, successes + INCREMENT);
      } else {
        ok := FindAndErase(data);
      }
      misses := if ok then misses else misses + 1;
      successes := successes + 1;
      CheckReturned();
    }

    method FindAndErase(data: Data) returns (found: bool)
      modifies this`expected
      ensures found <==> data in old(expected)
      ensures expected == Without(old(expected), data)
      ensures multiset(expected) == multiset(old(expected)) - multiset{data}
    {
      var i := 0;
      while i < |expected| && expected[i] != data
        invariant i <= |expected|
        invariant forall k :: 0 <= k < i ==> expected[k] != data
      {
        i := i + 1;
      }
      found := i < |expected|;
      WithoutMultiset(expected, data);
      WithoutAt(expected, data, i);
      if i < |expected| {
        expected := expected[..i] + expected[i + 1..];
      }
    }

    method CheckReturned()
      modifies this`allReturned
      ensures Model() == Ended(old(Model()))
    {
      if (successes + timeouts) % WORD >= (toReturn + toTimeout) % WORD {
        allReturned := true;
      }
    }
  }

  // -------------------------------------------------------- one client and one server

  /** The server's answer. */
  function Incremented(data: Data): Data
  {
    seq(|data|, i requires 0 <= i < |data| => (data[i] + INCREMENT) % 256)
  }

  /** `arguments` and `results` are logs of what reached server and client. Calls are numbered;
      `expired` are the calls that timed out before their answer came, whose answer the library
      drops, and `counted` the calls whose answer the client counted. */
  datatype State = State(
    sender: Sender, client: Client, server: Sub, replies: bool, calls: seq<Data>, answers: seq<Data>,
    arguments: seq<Data>, results: seq<Data>, expired: set<nat>, counted: set<nat>)

  datatype Event = Call | Serve | Return | Expire(call: nat)

  predicate IsStart(s: State)
  {
    && s.sender == NewSender(s.sender.size, s.sender.quota)
    && s.client == NewClient(s.sender.size, s.client.toReturn, s.client.toTimeout, true, [])
    && s.server == NewSub(s.sender.size, s.server.numMsgToReceive, true, [], 0)
    && s.calls == s.answers == s.arguments == s.results == [] && s.expired == s.counted == {}
  }

  /** Calls have a timeout only if some are expected to time out. */
  predicate Enabled(s: State, e: Event)
  {
    match e
    case Call => !s.sender.finished
    case Serve => s.calls != []
    case Return => s.answers != []
    case Expire(k) => s.client.toTimeout > 0 && |s.results| <= k < s.sender.sent && k !in s.expired
  }

  function Apply(s: State, e: Event): State
    requires Enabled(s, e)
  {
    match e
    case Call =>
      s.(sender := Send(s.sender), calls := s.calls + [Filled(s.sender.size, s.sender.sent)])
    case Serve =>
      s.(calls := s.calls[1..], arguments := s.arguments + [s.calls[0]],
         answers := if s.replies then s.answers + [Incremented(s.calls[0])] else s.answers,
         server := OnData(s.server, s.calls[0]))
    case Return =>
      var k, t := |s.results|, s.(answers := s.answers[1..], results := s.results + [s.answers[0]]);
      if k in s.expired then t
      else
        t.(client := OnOutcome(s.client, Success(s.answers[0])),
           counted := if s.client.allReturned then s.counted else s.counted + {k})
    case Expire(k) => s.(expired := s.expired + {k}, client := OnOutcome(s.client, TimedOut))
  }

  predicate ValidRun(s: State, es: seq<Event>)
    decreases |es|
  {
    es == [] || (Enabled(s, es[0]) && ValidRun(Apply(s, es[0]), es[1..]))
  }

  function Exec(s: State, es: seq<Event>): State
    requires ValidRun(s, es)
    decreases |es|
  {
    if es == [] then s else Exec(Apply(s, es[0]), es[1..])
  }

  /** The numbers from `a` up to `b`, each as `Filled`, shifted by `d`. */
  function Window(size: nat, a: nat, b: nat, d: nat): seq<Data>
    requires a <= b
  {
    seq(b - a, i requires 0 <= i => Filled(size, a + i + d))
  }

  ghost predicate Inv(s: State)
  {
    var size, sent, served, got := s.sender.size, s.sender.sent, |s.arguments|, |s.results|;
    && got <= served <= sent <= Effective(s.sender.quota)
    && (s.sender.finished <==> sent == Effective(s.sender.quota))
    && s.arguments == Window(size, 0, served, 0) && s.calls == Window(size, served, sent, 0)
    && s.results == Window(size, 0, got, INCREMENT)
    && (if s.replies then s.answers == Window(size, got, served, INCREMENT) else got == 0 && s.answers == [])
    && (forall k :: k in s.expired ==> k < sent)
    && ServerOk(s.server, size, served) && ClientOk(s.client, size, got, s.expired, s.counted)
  }

  predicate ServerOk(s: Sub, size: nat, served: nat)
  {
    && s.size == size && s.increasing && s.misses == 0
    && s.received == Min(served, Effective(s.numMsgToReceive))
    && (s.allReceived <==> served >= Effective(s.numMsgToReceive))
  }

  /** How many calls before call `k` have timed out. */
  function Lost(expired: set<nat>, k: nat): (n: nat)
    ensures n <= k
  {
    if k == 0 then 0 else Lost(expired, k - 1) + if k - 1 in expired then 1 else 0
  }

  /** The counter-based expectation holds for the result of call `k`. */
  predicate Matches(size: nat, expired: set<nat>, k: nat)
  {
    size == 0 || Lost(expired, k) % 256 == 0
  }

  ghost predicate AllMatch(size: nat, expired: set<nat>, counted: set<nat>)
  {
    forall k :: k in counted ==> Matches(size, expired, k)
  }

  ghost predicate ClientOk(c: Client, size: nat, got: nat, expired: set<nat>, counted: set<nat>)
  {
    && c.size == size && c.increasing
    && ReturnsCounted(c, got - Lost(expired, got) + |expired|)
    && (!c.allReturned ==> c.successes == got - Lost(expired, got) && c.timeouts == |expired|)
    && (forall k :: k in counted ==> k < got)
    && (c.misses == 0 <==> AllMatch(size, expired, counted))
  }

  /** A later timeout loses nothing before. */
  lemma {:induction false} LostStays(expired: set<nat>, j: nat, k: nat)
    requires k <= j
    ensures Lost(expired + {j}, k) == Lost(expired, k)
  {
    if k > 0 {
      LostStays(expired, j, k - 1);
    }
  }

  lemma {:induction false} LostAll(expired: set<nat>, n: nat)
    requires forall k :: k in expired ==> k < n
    ensures Lost(expired, n) == |expired|
  {
    if n == 0 {
      assert expired == {};
    } else {
      var rest := expired - {n - 1};
      LostAll(rest, n - 1);
      LostStays(rest, n - 1, n - 1);
      if n - 1 in expired {
        assert expired == rest + {n - 1};
      } else {
        assert expired == rest;
      }
    }
  }

  lemma SameFilling(size: nat, a: nat, b: nat)
    ensures Filled(size, a) == Filled(size, b) <==> size == 0 || a % 256 == b % 256
  {
    if size > 0 {
      assert Filled(size, a)[0] == a % 256 && Filled(size, b)[0] == b % 256;
    }
  }

  lemma Residues(a: nat, lost: nat)
    requires lost <= a
    ensures (a + INCREMENT) % 256 == (a - lost + INCREMENT) % 256 <==> lost % 256 == 0
  {
  }

  lemma ExpectsIff(c: Client, k: nat, expired: set<nat>)
    requires c.increasing && c.successes == k - Lost(expired, k)
    ensures Expects(c, Filled(c.size, k + INCREMENT)) <==> Matches(c.size, expired, k)
  {
    SameFilling(c.size, k + INCREMENT, c.successes + INCREMENT);
    Residues(k, Lost(expired, k));
  }

  lemma ReturnCounted(c: Client, got: nat, expired: set<nat>, counted: set<nat>)
    requires ClientOk(c, c.size, got, expired, counted) && got !in expired
    ensures var c' := OnOutcome(c, Success(Filled(c.size, got + INCREMENT)));
            var counted' := if c.allReturned then counted else counted + {got};
            ClientOk(c', c.size, got + 1, expired, counted')
  {
    var r := Success(Filled(c.size, got + INCREMENT));
    OutcomeCounted(c, got - Lost(expired, got) + |expired|, r);
    if !c.allReturned {
      ExpectsIff(c, got, expired);
      assert AllMatch(c.size, expired, counted + {got}) <==>
             AllMatch(c.size, expired, counted) && Matches(c.size, expired, got) by {
        assert forall k :: k in counted + {got} <==> k in counted || k == got;
      }
    }
  }

  lemma DropCounted(c: Client, got: nat, expired: set<nat>, counted: set<nat>)
    requires ClientOk(c, c.size, got, expired, counted) && got in expired
    ensures ClientOk(c, c.size, got + 1, expired, counted)
  {
  }

  lemma ExpireCounted(c: Client, got: nat, expired: set<nat>, counted: set<nat>, j: nat)
    requires ClientOk(c, c.size, got, expired, counted) && got <= j && j !in expired
    ensures ClientOk(OnOutcome(c, TimedOut), c.size, got, expired + {j}, counted)
  {
    LostStays(expired, j, got);
    OutcomeCounted(c, got - Lost(expired, got) + |expired|, TimedOut);
    forall k | k in counted ensures Lost(expired + {j}, k) == Lost(expired, k) {
      LostStays(expired, j, k);
    }
    assert AllMatch(c.size, expired + {j}, counted) <==> AllMatch(c.size, expired, counted);
  }

  lemma IncrementedFilled(size: nat, n: nat)
    ensures Incremented(Filled(size, n)) == Filled(size, n + INCREMENT)
  {
    assert (n % 256 + INCREMENT) % 256 == (n + INCREMENT) % 256;
  }

  lemma WindowEnds(size: nat, a: nat, b: nat, d: nat)
    requires a <= b
    ensures Window(size, a, b + 1, d) == Window(size, a, b, d) + [Filled(size, b + d)]
    ensures a < b ==>
              Window(size, a, b, d)[1..] == Window(size, a + 1, b, d) && Window(size, a, b, d)[0] == Filled(size, a + d)
  {
    if a < b {
      assert Window(size, a, b, d)[1..] == Window(size, a + 1, b, d);
    }
  }

  lemma PreserveCall(s: State)
    requires Inv(s) && Enabled(s, Call)
    ensures Inv(Apply(s, Call))
  {
    WindowEnds(s.sender.size, |s.arguments|, s.sender.sent, 0);
  }

  lemma PreserveServe(s: State)
    requires Inv(s) && Enabled(s, Serve)
    ensures Inv(Apply(s, Serve))
  {
    var size, served := s.sender.size, |s.arguments|;
    WindowEnds(size, served, s.sender.sent, 0);
    WindowEnds(size, 0, served, 0);
    WindowEnds(size, |s.results|, served, INCREMENT);
    IncrementedFilled(size, served);
    ServeCounted(s.server, size, served);
  }

  lemma ServeCounted(s: Sub, size: nat, served: nat)
    requires ServerOk(s, size, served)
    ensures ServerOk(OnData(s, Filled(size, served)), size, served + 1)
  {
  }

  lemma PreserveReturn(s: State)
    requires Inv(s) && Enabled(s, Return)
    ensures Inv(Apply(s, Return))
  {
    var size, got := s.sender.size, |s.results|;
    WindowEnds(size, got, |s.arguments|, INCREMENT);
    WindowEnds(size, 0, got, INCREMENT);
    if got in s.expired {
      DropCounted(s.client, got, s.expired, s.counted);
    } else {
      ReturnCounted(s.client, got, s.expired, s.counted);
    }
  }

  lemma PreserveExpire(s: State, k: nat)
    requires Inv(s) && Enabled(s, Expire(k))
    ensures Inv(Apply(s, Expire(k)))
  {
    ExpireCounted(s.client, |s.results|, s.expired, s.counted, k);
  }

  lemma Preserve(s: State, e: Event)
    requires Inv(s) && Enabled(s, e)
    ensures Inv(Apply(s, e))
  {
    match e
    case Call => PreserveCall(s);
    case Serve => PreserveServe(s);
    case Return => PreserveReturn(s);
    case Expire(k) => PreserveExpire(s, k);
  }

  lemma {:induction false} RunInv(s: State, es: seq<Event>)
    requires Inv(s) && ValidRun(s, es)
    ensures Inv(Exec(s, es))
    decreases |es|
  {
    if es != [] {
      Preserve(s, es[0]);
      RunInv(Apply(s, es[0]), es[1..]);
    }
  }

  lemma StartInv(s: State)
    requires IsStart(s)
    ensures Inv(s)
  {
  }

  /** In every run, past the wrap-around of the byte as well: no expectation of the server
      fails, the k-th argument carries k and the k-th result k + 100. The client's
      expectations all hold if and only if, for every result it counted, the number of earlier
      calls that timed out is a multiple of 256, or the payloads are empty; so they do if no
      call times out. */
  lemma ExpectationsHoldIff(s: State, es: seq<Event>, k: nat)
    requires IsStart(s) && ValidRun(s, es)
    ensures var end := Exec(s, es);
            && end.server.misses == 0
            && |end.results| <= |end.arguments| <= Effective(end.sender.quota)
            && (k < |end.arguments| ==> Carries(end.arguments[k], end.sender.size, k))
            && (k < |end.results| ==> Carries(end.results[k], end.sender.size, k + 100))
            && (end.client.misses == 0 <==> AllMatch(end.sender.size, end.expired, end.counted))
            && (end.expired == {} ==> end.client.misses == 0)
            && end.client.successes + end.client.timeouts <= Effective(Target(end.client))
            && (end.client.allReturned <==>
                  end.client.successes + end.client.timeouts == Effective(Target(end.client)))
  {
    StartInv(s);
    RunInv(s, es);
    var end := Exec(s, es);
    FilledCarries(Filled(end.sender.size, k), end.sender.size, k);
    FilledCarries(Filled(end.sender.size, k + 100), end.sender.size, k + 100);
    if end.expired == {} {
      forall k | k in end.counted ensures Matches(end.sender.size, {}, k) {
        NothingLost(k);
      }
    }
  }

  lemma {:induction false} NothingLost(k: nat)
    ensures Lost({}, k) == 0
  {
    if k > 0 {
      NothingLost(k - 1);
    }
  }

  lemma Prepend(s: State, e: Event, es: seq<Event>)
    requires Enabled(s, e) && ValidRun(Apply(s, e), es)
    ensures ValidRun(s, [e] + es) && Exec(s, [e] + es) == Exec(Apply(s, e), es)
  {
    assert ([e] + es)[1..] == es;
  }

  /** Two calls with payloads of one byte, one of which is to time out. */
  function TwoCalls(): State
  {
    State(NewSender(1, 2), NewClient(1, 1, 1, true, []), NewSub(1, 2, true, [], 0), true, [], [], [], [], {}, {})
  }

  /** A run in which the expectation fails: the first call times out, the second one returns. */
  lemma TimeoutBreaksExpectation() returns (es: seq<Event>)
    ensures IsStart(TwoCalls()) && ValidRun(TwoCalls(), es) && Exec(TwoCalls(), es).client.misses == 1
  {
    var s1 := Apply(TwoCalls(), Call);
    var s2 := Apply(s1, Call);
    var s3 := Apply(s2, Expire(0));
    var s4 := Apply(s3, Serve);
    var s5 := Apply(s4, Serve);
    var s6 := Apply(s5, Return);
    assert s6.answers == [Incremented(Filled(1, 1))] && s6.client == s3.client && !s6.client.allReturned;
    IncrementedFilled(1, 1);
    SameFilling(1, 1 + INCREMENT, INCREMENT);
    assert !Expects(s6.client, s6.answers[0]);
    es := [];
    Prepend(s6, Return, es);
    es := [Return] + es;
    Prepend(s5, Return, es);
    es := [Return] + es;
    Prepend(s4, Serve, es);
    es := [Serve] + es;
    Prepend(s3, Serve, es);
    es := [Serve] + es;
    Prepend(s2, Expire(0), es);
    es := [Expire(0)] + es;
    Prepend(s1, Call, es);
    es := [Call] + es;
    Prepend(TwoCalls(), Call, es);
    es := [Call] + es;
  }

  /** A run that cannot be continued has served every call; if the server replies, or calls
      time out, every call has had its outcome. */
  lemma FinalRunIsComplete(s: State, es: seq<Event>)
    requires IsStart(s) && ValidRun(s, es) && forall e :: !Enabled(Exec(s, es), e)
    ensures var end := Exec(s, es); var n := Effective(end.sender.quota);
            && |end.arguments| == n && |end.results| == (if end.replies then n else 0)
            && end.server.received == Min(n, Effective(end.server.numMsgToReceive))
            && (end.replies || end.client.toTimeout > 0 ==>
                  end.client.successes + end.client.timeouts == Min(n, Effective(Target(end.client))))
  {
    StartInv(s);
    RunInv(s, es);
    var end := Exec(s, es);
    assert !Enabled(end, Call) && !Enabled(end, Serve) && !Enabled(end, Return);
    LostAll(end.expired, end.sender.sent);
    if !end.replies && end.client.toTimeout > 0 {
      forall k: nat | k < end.sender.sent ensures k in end.expired {
        assert !Enabled(end, Expire(k));
      }
      AllLost(end.expired, end.sender.sent);
    }
  }

  lemma {:induction false} AllLost(expired: set<nat>, n: nat)
    requires forall k: nat :: k < n ==> k in expired
    ensures Lost(expired, n) == n
  {
    if n > 0 {
      AllLost(expired, n - 1);
    }
  }
}
