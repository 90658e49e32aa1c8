/** The subscribers of the publish/subscribe tests: received data is counted and matched
    either in order or against a list of expected data without order. */
module PubSub {
  import opened Arithmetic
  import opened Fifo
  import opened Senders

  // ------------------------------------------------------------------ subscribers

  /** `misses` counts failed expectations. */
  datatype Sub = Sub(
    size: nat, numMsgToReceive: nat, increasing: bool, expected: seq<Data>, expectedSources: nat,
    received: nat, allReceived: bool, sources: nat, allDiscovered: bool, misses: nat)

  function NewSub(size: nat, numMsgToReceive: nat, increasing: bool, expected: seq<Data>, expectedSources: nat): Sub
  {
    Sub(size, numMsgToReceive, increasing, expected, expectedSources, 0, false, 0, false, 0)
  }

  /** `xs` without its first `x`. */
  function Without<T(==)>(xs: seq<T>, x: T): seq<T>
  {
    if xs == [] then [] else if xs[0] == x then xs[1..] else [xs[0]] + Without(xs[1..], x)
  }

  function OnData(s: Sub, data: Data): Sub
  {
    if s.allReceived then s
    else
      var hit := if s.increasing then data == Filled(s.size, s.received) else data in s.expected;
      var received := s.received + 1;
      s.(misses := if hit then s.misses else s.misses + 1,
         expected := if s.increasing then s.expected else Without(s.expected, data),
         received := received, allReceived := received >= s.numMsgToReceive)
  }

  function OnDiscovery(s: Sub): Sub
  {
    s.(sources := s.sources + 1, allDiscovered := s.allDiscovered || s.sources + 1 >= s.expectedSources)
  }

  /** `DataSubscriberInfo`, updated in place. */
  class DataSubscriber {
    const size: nat
    const numMsgToReceive: nat
    const increasing: bool
    const expectedSources: nat
    var expected: seq<Data>
    var received: nat
    var allReceived: bool
    var sources: nat
    var allDiscovered: bool
    ghost var misses: nat

    ghost function Model(): Sub
      reads this
    {
      Sub(size, numMsgToReceive, increasing, expected, expectedSources,
          received, allReceived, sources, allDiscovered, misses)
    }

    constructor (size: nat, numMsgToReceive: nat, increasing: bool, expected: seq<Data>, expectedSources: nat)
      ensures Model() == NewSub(size, numMsgToReceive, increasing, expected, expectedSources)
    {
      this.size, this.numMsgToReceive, this.increasing := size, numMsgToReceive, increasing;
      this.expected, this.expectedSources := expected, expectedSources;
      received, allReceived, sources, allDiscovered, misses := 0, false, 0, false, 0;
    }

    method Find(data: Data) returns (i: nat)
      ensures i <= |expected|
      ensures forall k :: 0 <= k < i ==> expected[k] != data
      ensures i < |expected| ==> expected[i] == data
    {
      i := 0;
      while i < |expected| && expected[i] != data
        invariant i <= |expected|
        invariant forall k :: 0 <= k < i ==> expected[k] != data
      {
        i := i + 1;
      }
    }

    /** Whether the data is expected; what is found in the list is erased from it. */
    method MatchData(data: Data) returns (ok: bool)
      modifies this`expected
      ensures increasing ==> (ok <==> data == Filled(size, received)) && expected == old(expected)
      ensures !increasing ==> (ok <==> data in old(expected)) && expected == Without(old(expected), data)
    {
      if increasing {
        ok := data == Filled(size, received);
      } else {
        var i := Find(data);
        ok := i < |expected|;
        WithoutAt(expected, data, i);
        if i < |expected| {
          expected := expected[..i] + expected[i + 1..];
        }
      }
    }

    method OnDataReception(data: Data) returns (ok: bool)
      modifies this
      ensures Model() == OnData(old(Model()), data)
      ensures ok <==> misses == old(misses)
      ensures received == old(received) + (if old(allReceived) then 0 else 1)
      ensures allReceived == (old(allReceived) || received >= numMsgToReceive)
      ensures ok <==>
                old(allReceived) || (if increasing then Carries(data, size, old(received)) else data in old(expected))
    {
      FilledCarries(data, size, received);
      ok := true;
      if !allReceived {
        ok := MatchData(data);
        misses := if ok then misses else misses + 1;
        received := received + 1;
        if received >= numMsgToReceive {
          allReceived := true;
        }
      }
    }

    method OnNewServiceDiscovery()
      modifies this
      ensures Model() == OnDiscovery(old(Model()))
      ensures sources == old(sources) + 1 && allDiscovered == (old(allDiscovered) || sources >= expectedSources)
    {
      sources := sources + 1;
      if !allDiscovered {
        if sources >= expectedSources {
          allDiscovered := true;
        }
      }
    }
  }

  lemma {:induction false} WithoutAt(xs: seq<Data>, x: Data, i: nat)
    requires i <= |xs| && forall k :: 0 <= k < i ==> xs[k] != x
    requires i < |xs| ==> xs[i] == x
    ensures x in xs <==> i < |xs|
    ensures Without(xs, x) == if i < |xs| then xs[..i] + xs[i + 1..] else xs
  {
    if xs != [] && xs[0] != x {
      var rest := xs[1..];
      assert forall k :: 0 <= k < |rest| ==> rest[k] == xs[k + 1];
      WithoutAt(rest, x, i - 1);
      assert xs == [xs[0]] + rest;
      if i < |xs| {
        assert [xs[0]] + rest[..i - 1] == xs[..i] && rest[i..] == xs[i + 1..];
      }
    }
  }

  // ------------------------------------------------------------ unordered reception

  function Receive(s: Sub, ms: seq<Data>): Sub
    decreases |ms|
  {
    if ms == [] then s else Receive(OnData(s, ms[0]), ms[1..])
  }

  lemma {:induction false} WithoutMultiset<T>(xs: seq<T>, x: T)
    ensures multiset(Without(xs, x)) == multiset(xs) - multiset{x}
  {
    if xs != [] {
      assert xs == [xs[0]] + xs[1..];
      WithoutMultiset(xs[1..], x);
      if xs[0] != x {
        AddThenRemove(xs[0], x, multiset(xs[1..]));
        assert multiset(Without(xs, x)) == multiset{xs[0]} + multiset(Without(xs[1..], x));
      }
    }
  }

  lemma AddThenRemove<T>(a: T, x: T, rest: multiset<T>)
    requires a != x
    ensures multiset{a} + (rest - multiset{x}) == multiset{a} + rest - multiset{x}
  {
  }

  /** How many messages count: reception ends with the announced number, but the first
      message is looked at even if none is announced. */
  function Quota(s: Sub): nat
  {
    if s.allReceived then 0 else if s.numMsgToReceive <= s.received then 1 else s.numMsgToReceive - s.received
  }

  function Min(a: nat, b: nat): nat { if a < b then a else b }

  /** The messages of `ms` that are looked at. */
  function Counted(s: Sub, ms: seq<Data>): seq<Data>
  {
    ms[..Min(|ms|, Quota(s))]
  }

  lemma CountedStep(s: Sub, ms: seq<Data>)
    requires ms != []
    ensures Counted(s, ms) == if s.allReceived then [] else [ms[0]] + Counted(OnData(s, ms[0]), ms[1..])
  {
  }

  /** Unordered reception: no expectation fails if and only if the multiset of the messages
      that count is contained in the expected multiset, whatever their order; then exactly
      these are gone from the expected list. */
  lemma {:induction false} UnorderedAcceptsExactly(s: Sub, ms: seq<Data>)
    requires !s.increasing
    ensures Receive(s, ms).misses == s.misses <==> multiset(Counted(s, ms)) <= multiset(s.expected)
    ensures Receive(s, ms).misses >= s.misses
    ensures multiset(Counted(s, ms)) <= multiset(s.expected) ==>
              multiset(Receive(s, ms).expected) == multiset(s.expected) - multiset(Counted(s, ms))
    decreases |ms|
  {
    if ms != [] {
      CountedStep(s, ms);
      if s.allReceived {
        IgnoresRest(s, ms);
      } else {
        var s', rest := OnData(s, ms[0]), Counted(OnData(s, ms[0]), ms[1..]);
        UnorderedAcceptsExactly(s', ms[1..]);
        WithoutMultiset(s.expected, ms[0]);
        assert multiset([ms[0]] + rest) == multiset{ms[0]} + multiset(rest);
        RemoveOne(multiset(s.expected), ms[0], multiset(rest));
      }
    }
  }

  /** Taking out `x` and then `rest` is taking out both at once. */
  lemma RemoveOne<T>(all: multiset<T>, x: T, rest: multiset<T>)
    ensures multiset{x} + rest <= all <==> x in all && rest <= all - multiset{x}
    ensures multiset{x} + rest <= all ==> all - multiset{x} - rest == all - (multiset{x} + rest)
  {
    if x in all && rest <= all - multiset{x} {
      forall y ensures (multiset{x} + rest)[y] <= all[y] {
        assert rest[y] <= (all - multiset{x})[y];
      }
    }
  }

  lemma {:induction false} ReceivedCount(s: Sub, ms: seq<Data>)
    ensures Receive(s, ms).received == s.received + |Counted(s, ms)|
    decreases |ms|
  {
    if ms != [] {
      CountedStep(s, ms);
      if s.allReceived {
        IgnoresRest(s, ms);
      } else {
        ReceivedCount(OnData(s, ms[0]), ms[1..]);
      }
    }
  }

  // --------------------------------------------- several publishers, one subscriber

  function Payloads(size: nat, numbers: seq<nat>): seq<Data>
  {
    seq(|numbers|, i requires 0 <= i < |numbers| => Filled(size, numbers[i]))
  }

  /** The expected list of the test: every number below `n`, once per publisher. */
  function ExpectedNumbers(publishers: nat, n: nat): seq<nat>
  {
    if n == 0 then [] else ExpectedNumbers(publishers, n - 1) + All(publishers, n - 1)
  }

  /** The loop counter is a byte, so the loop ends only for at most 255 messages. */
  method BuildExpected(size: nat, publishers: nat, n: nat) returns (expected: seq<Data>)
    requires n <= 255
    ensures expected == Payloads(size, ExpectedNumbers(publishers, n))
    ensures |expected| == n * publishers
    ensures forall k :: 0 <= k < |expected| ==>
              publishers > 0 && k / publishers < n && Carries(expected[k], size, k / publishers)
  {
    expected := [];
    var d: Byte := 0;
    while d < n
      invariant d <= n && expected == Payloads(size, ExpectedNumbers(publishers, d))
    {
      ghost var before := expected;
      for i := 0 to publishers
        invariant expected == before + Payloads(size, All(i, d))
      {
        expected := expected + [Filled(size, d)];
        assert All(i + 1, d) == All(i, d) + [d];
      }
      assert before + Payloads(size, All(publishers, d)) ==
             Payloads(size, ExpectedNumbers(publishers, d) + All(publishers, d));
      d := d + 1;
    }
    ExpectedLength(publishers, n);
    ExpectedBytes(size, publishers, n);
  }

  lemma ExpectedBytes(size: nat, publishers: nat, n: nat)
    ensures var expected := Payloads(size, ExpectedNumbers(publishers, n));
            forall k :: 0 <= k < |expected| ==>
              publishers > 0 && k / publishers < n && Carries(expected[k], size, k / publishers)
  {
    var expected := Payloads(size, ExpectedNumbers(publishers, n));
    forall k | 0 <= k < |expected|
      ensures publishers > 0 && k / publishers < n && Carries(expected[k], size, k / publishers)
    {
      ExpectedAt(publishers, n, k);
      FilledCarries(expected[k], size, ExpectedNumbers(publishers, n)[k]);
    }
  }

  lemma {:induction false} ExpectedLength(publishers: nat, n: nat)
    ensures |ExpectedNumbers(publishers, n)| == n * publishers
  {
    if n > 0 {
      ExpectedLength(publishers, n - 1);
      assert n * publishers == (n - 1) * publishers + publishers;
    }
  }

  lemma {:induction false} ExpectedAt(publishers: nat, n: nat, k: nat)
    requires k < |ExpectedNumbers(publishers, n)|
    ensures publishers > 0 && k / publishers < n && ExpectedNumbers(publishers, n)[k] == k / publishers
  {
    ExpectedLength(publishers, n - 1);
    if k < |ExpectedNumbers(publishers, n - 1)| {
      ExpectedAt(publishers, n - 1, k);
    } else {
      DivModUnique(k, publishers, n - 1, k - (n - 1) * publishers);
    }
  }

  lemma {:induction false} AllCount(k: nat, n: nat, j: nat)
    ensures multiset(All(k, n))[j] == if j == n then k else 0
  {
    if k > 0 {
      assert All(k, n) == All(k - 1, n) + [n];
      AllCount(k - 1, n, j);
    }
  }

  lemma {:induction false} ExpectedCount(publishers: nat, n: nat, j: nat)
    ensures multiset(ExpectedNumbers(publishers, n))[j] == if j < n then publishers else 0
  {
    if n > 0 {
      ExpectedCount(publishers, n - 1, j);
      AllCount(publishers, n - 1, j);
    }
  }

  lemma TakeOut<T>(b: seq<T>, i: nat)
    requires i < |b|
    ensures multiset(b) == multiset{b[i]} + multiset(b[..i] + b[i + 1..])
  {
    assert b == b[..i] + [b[i]] + b[i + 1..];
  }

  lemma Cancel<T>(x: T, p: multiset<T>, q: multiset<T>)
    requires multiset{x} + p == multiset{x} + q
    ensures p == q
  {
    assert p == multiset{x} + p - multiset{x} && q == multiset{x} + q - multiset{x};
  }

  lemma FindFirst(a: seq<nat>, b: seq<nat>) returns (i: nat)
    requires multiset(a) == multiset(b) && a != []
    ensures i < |b| && b[i] == a[0] && multiset(a[1..]) == multiset(b[..i] + b[i + 1..])
  {
    assert a[0] in multiset(b);
    i :| 0 <= i < |b| && b[i] == a[0];
    TakeOut(a, 0);
    TakeOut(b, i);
    assert a[..0] + a[1..] == a[1..];
    Cancel(a[0], multiset(a[1..]), multiset(b[..i] + b[i + 1..]));
  }

  lemma {:induction false} SamePayloads(size: nat, a: seq<nat>, b: seq<nat>)
    requires multiset(a) == multiset(b)
    ensures multiset(Payloads(size, a)) == multiset(Payloads(size, b))
    decreases |a|
  {
    assert |a| == |multiset(a)| == |b|;
    if a != [] {
      var i := FindFirst(a, b);
      SamePayloads(size, a[1..], b[..i] + b[i + 1..]);
      PayloadsTakeOut(size, a, 0);
      PayloadsTakeOut(size, b, i);
      assert a[..0] + a[1..] == a[1..];
    }
  }

  lemma PayloadsTakeOut(size: nat, b: seq<nat>, i: nat)
    requires i < |b|
    ensures multiset(Payloads(size, b)) == multiset{Filled(size, b[i])} + multiset(Payloads(size, b[..i] + b[i + 1..]))
  {
    var p := Payloads(size, b);
    TakeOut(p, i);
    assert p[..i] + p[i + 1..] == Payloads(size, b[..i] + b[i + 1..]);
  }

  /** Any number of publishers, each with n messages of its own order, received in any
      merge: no lookup misses, the expected list ends empty and the count is complete. */
  lemma EveryMergeIsAccepted(size: nat, publishers: nat, n: nat, sources: nat, schedule: seq<nat>)
    requires publishers >= 1 && n >= 1 && IsCompleteMerge(schedule, publishers, n)
    ensures var s := NewSub(size, publishers * n, false, Payloads(size, ExpectedNumbers(publishers, n)), sources);
            var r := Receive(s, Payloads(size, Numbers(All(publishers, 0), schedule)));
            r.misses == 0 && r.expected == [] && r.received == publishers * n && r.allReceived
  {
    var s := NewSub(size, publishers * n, false, Payloads(size, ExpectedNumbers(publishers, n)), sources);
    var ms := Payloads(size, Numbers(All(publishers, 0), schedule));
    CompleteLength(schedule, publishers, n);
    assert publishers * n >= 1;
    assert Counted(s, ms) == ms;
    MergeIsExpected(publishers, n, schedule);
    SamePayloads(size, Numbers(All(publishers, 0), schedule), ExpectedNumbers(publishers, n));
    UnorderedAcceptsExactly(s, ms);
    assert |Receive(s, ms).expected| == |multiset(Receive(s, ms).expected)|;
    ReceivedCount(s, ms);
    EndsComplete(s, ms);
  }

  lemma MergeIsExpected(publishers: nat, n: nat, schedule: seq<nat>)
    requires IsCompleteMerge(schedule, publishers, n)
    ensures multiset(Numbers(All(publishers, 0), schedule)) == multiset(ExpectedNumbers(publishers, n))
  {
    var numbers: seq<nat> := Numbers(All(publishers, 0), schedule);
    forall j: nat ensures multiset(numbers)[j] == multiset(ExpectedNumbers(publishers, n))[j] {
      CompleteCount(schedule, publishers, n, j);
      ExpectedCount(publishers, n, j);
    }
  }

  lemma {:induction false} EndsComplete(s: Sub, ms: seq<Data>)
    requires s.allReceived <==> s.received >= s.numMsgToReceive && s.received > 0
    ensures var r := Receive(s, ms); r.allReceived <==> r.received >= r.numMsgToReceive && r.received > 0
    ensures Receive(s, ms).numMsgToReceive == s.numMsgToReceive
    decreases |ms|
  {
    if ms != [] {
      EndsComplete(OnData(s, ms[0]), ms[1..]);
    }
  }

  /** Every byte of the message is `n` modulo 256, and there are `size` of them. */
  predicate Carries(data: Data, size: nat, n: nat)
  {
    |data| == size && forall j :: 0 <= j < size ==> data[j] == n % 256
  }

  lemma FilledCarries(data: Data, size: nat, n: nat)
    ensures data == Filled(size, n) <==> Carries(data, size, n)
  {
  }

  /** The messages carry the numbers from `n` on. */
  predicate CarryFrom(ms: seq<Data>, size: nat, n: nat)
  {
    ms == [] || (Carries(ms[0], size, n) && CarryFrom(ms[1..], size, n + 1))
  }

  /** In-order reception: no expectation fails if and only if the messages that count carry
      the numbers in order, past the wrap-around of the byte. */
  lemma {:induction false} IncreasingAcceptsIff(s: Sub, ms: seq<Data>)
    requires s.increasing
    ensures Receive(s, ms).misses >= s.misses
    ensures Receive(s, ms).misses == s.misses <==> CarryFrom(Counted(s, ms), s.size, s.received)
    decreases |ms|
  {
    if ms != [] {
      CountedStep(s, ms);
      if s.allReceived {
        IgnoresRest(s, ms);
      } else {
        FilledCarries(ms[0], s.size, s.received);
        IncreasingAcceptsIff(OnData(s, ms[0]), ms[1..]);
        assert Counted(s, ms)[1..] == Counted(OnData(s, ms[0]), ms[1..]);
      }
    }
  }

  lemma {:induction false} CarryFromAt(ms: seq<Data>, size: nat, n: nat, k: nat)
    requires CarryFrom(ms, size, n) && k < |ms|
    ensures Carries(ms[k], size, n + k)
    decreases |ms|
  {
    if k > 0 {
      CarryFromAt(ms[1..], size, n + 1, k - 1);
    }
  }

  lemma {:induction false} IgnoresRest(s: Sub, ms: seq<Data>)
    requires s.allReceived
    ensures Receive(s, ms) == s
    decreases |ms|
  {
    if ms != [] {
      IgnoresRest(s, ms[1..]);
    }
  }
}
