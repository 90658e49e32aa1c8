/** The members of a test participant that send a given number of messages: publishers of
    the publish/subscribe tests and clients of the remote procedure call tests. */
module Senders {
  import opened Arithmetic

  type Data = seq<Byte>

  /** The payload that carries the number `n`: its low byte, repeated. */
  function Filled(size: nat, n: nat): Data
  {
    seq(size, i => n % 256)
  }

  /** The payloads of the numbers below `n`, in order. */
  function Stream(size: nat, n: nat): seq<Data>
  {
    seq(n, i requires 0 <= i => Filled(size, i))
  }

  /** `log` holds what was handed to the library. */
  datatype Sender = Sender(size: nat, quota: nat, sent: nat, finished: bool, log: seq<Data>)

  function NewSender(size: nat, quota: nat): Sender
  {
    Sender(size, quota, 0, false, [])
  }

  /** Once finished nothing is sent; the check follows the sending, so that a quota of
      zero still sends one message. */
  function Send(s: Sender): Sender
  {
    if s.finished then s
    else Sender(s.size, s.quota, s.sent + 1, s.sent + 1 >= s.quota, s.log + [Filled(s.size, s.sent)])
  }

  function Effective(quota: nat): nat
  {
    if quota == 0 then 1 else quota
  }

  function Round(ss: seq<Sender>): (r: seq<Sender>)
    ensures |r| == |ss|
  {
    seq(|ss|, i requires 0 <= i < |ss| => Send(ss[i]))
  }

  function Rounds(ss: seq<Sender>, k: nat): (r: seq<Sender>)
    ensures |r| == |ss|
  {
    if k == 0 then ss else Round(Rounds(ss, k - 1))
  }

  predicate AllFresh(ss: seq<Sender>)
  {
    forall i :: 0 <= i < |ss| ==> ss[i] == NewSender(ss[i].size, ss[i].quota)
  }

  /** `s` after `k` rounds, from the start. */
  function Progress(s: Sender, k: nat): Sender
  {
    var n := if k < Effective(s.quota) then k else Effective(s.quota);
    Sender(s.size, s.quota, n, n == Effective(s.quota), Stream(s.size, n))
  }

  /** Every member sends the numbers in order and stops at its own effective quota: after k
      rounds it has sent min(k, max(1, quota)) messages, and every byte of its n-th message is
      n modulo 256. */
  lemma {:induction false} AfterRounds(ss: seq<Sender>, k: nat, i: nat)
    requires AllFresh(ss) && i < |ss|
    ensures Rounds(ss, k)[i] == Progress(ss[i], k)
    ensures var s, m := Rounds(ss, k)[i], if ss[i].quota == 0 then 1 else ss[i].quota;
            && s.sent == |s.log| == (if k < m then k else m) && (s.finished <==> k >= m)
            && forall n, j :: 0 <= n < |s.log| && 0 <= j < s.size ==> |s.log[n]| == s.size && s.log[n][j] == n % 256
  {
    if k > 0 {
      AfterRounds(ss, k - 1, i);
      var n := Progress(ss[i], k - 1).sent;
      assert Stream(ss[i].size, n + 1) == Stream(ss[i].size, n) + [Filled(ss[i].size, n)];
    }
  }

  predicate SomeFinished(ss: seq<Sender>)
  {
    exists i :: 0 <= i < |ss| && ss[i].finished
  }

  predicate AllFinished(ss: seq<Sender>)
  {
    forall i :: 0 <= i < |ss| ==> ss[i].finished
  }

  /** The smallest effective quota. */
  function Smallest(ss: seq<Sender>): (m: nat)
    requires ss != []
    ensures m >= 1
    ensures forall i :: 0 <= i < |ss| ==> m <= Effective(ss[i].quota)
    ensures exists i :: 0 <= i < |ss| && m == Effective(ss[i].quota)
  {
    var first := Effective(ss[0].quota);
    if |ss| == 1 then first
    else
      var rest := Smallest(ss[1..]);
      assert forall i :: 1 <= i < |ss| ==> ss[i] == ss[1..][i - 1];
      if first < rest then first else rest
  }

  /** The largest effective quota. */
  function Largest(ss: seq<Sender>): (m: nat)
    requires ss != []
    ensures forall i :: 0 <= i < |ss| ==> m >= Effective(ss[i].quota)
    ensures exists i :: 0 <= i < |ss| && m == Effective(ss[i].quota)
  {
    var first := Effective(ss[0].quota);
    if |ss| == 1 then first
    else
      var rest := Largest(ss[1..]);
      assert forall i :: 1 <= i < |ss| ==> ss[i] == ss[1..][i - 1];
      if first > rest then first else rest
  }

  lemma SomeFinishedWhen(ss: seq<Sender>, k: nat)
    requires AllFresh(ss) && ss != []
    ensures SomeFinished(Rounds(ss, k)) <==> k >= Smallest(ss)
    ensures AllFinished(Rounds(ss, k)) <==> k >= Largest(ss)
  {
    forall i | 0 <= i < |ss| ensures Rounds(ss, k)[i].finished <==> k >= Effective(ss[i].quota) {
      AfterRounds(ss, k, i);
    }
  }

  /** Rounds until some member is finished: every member has then sent exactly as many
      messages as the smallest effective quota says, so that all are finished if and only
      if their effective quotas are the same. */
  lemma OutcomeOfLoop(ss: seq<Sender>)
    requires AllFresh(ss) && ss != []
    ensures var m := Smallest(ss); var end := Rounds(ss, m);
            && SomeFinished(end)
            && (forall k :: 0 <= k < m ==> !SomeFinished(Rounds(ss, k)))
            && (forall i :: 0 <= i < |ss| ==> end[i].sent == m && end[i].log == Stream(ss[i].size, m))
            && (AllFinished(end) <==> forall i :: 0 <= i < |ss| ==> Effective(ss[i].quota) == Effective(ss[0].quota))
  {
    var m := Smallest(ss);
    SomeFinishedWhen(ss, m);
    forall k | 0 <= k < m ensures !SomeFinished(Rounds(ss, k)) {
      SomeFinishedWhen(ss, k);
    }
    forall i | 0 <= i < |ss| ensures Rounds(ss, m)[i] == Progress(ss[i], m) {
      AfterRounds(ss, m, i);
    }
    assert Rounds(ss, m)[0] == Progress(ss[0], m);
  }

  /** A participant's list of senders with its one-shot promise. */
  class SenderList {
    var members: seq<Sender>
    var flag: bool
    ghost var fulfilled: nat

    constructor (members: seq<Sender>)
      ensures this.members == members && !flag && fulfilled == 0
    {
      this.members := members;
      flag, fulfilled := false, 0;
    }

    method SendRound()
      modifies this`members
      ensures members == Round(old(members))
    {
      ghost var before := members;
      for i := 0 to |members|
        invariant |members| == |before|
        invariant forall j :: 0 <= j < i ==> members[j] == Send(before[j])
        invariant forall j :: i <= j < |before| ==> members[j] == before[j]
      {
        members := members[i := Send(members[i])];
      }
      assert members == Round(before);
    }

    /** Without time synchronization. The loop ends for every list of quotas. */
    method RunUntilSomeFinished()
      requires AllFresh(members)
      modifies this
      ensures old(members) == [] ==> members == [] && fulfilled == old(fulfilled)
      ensures old(members) != [] ==> members == Rounds(old(members), Smallest(old(members)))
      ensures old(members) != [] ==> fulfilled == old(fulfilled) + 1
      ensures flag == old(flag)
    {
      if members != [] {
        ghost var m := Smallest(members);
        forall k: nat ensures SomeFinished(Rounds(members, k)) <==> k >= m {
          SomeFinishedWhen(members, k);
        }
        LoopUntilSomeFinished(m);
        fulfilled := fulfilled + 1;
      }
    }

    method LoopUntilSomeFinished(ghost m: nat)
      requires forall k: nat {:trigger Rounds(members, k)} :: SomeFinished(Rounds(members, k)) <==> k >= m
      modifies this`members
      ensures members == Rounds(old(members), m)
    {
      ghost var k := 0;
      while !SomeFinished(members)
        invariant members == Rounds(old(members), k) && k <= m
        decreases m - k
      {
        SendRound();
        k := k + 1;
      }
    }

    /** One step with time synchronization; `guarded` skips an empty list. */
    method Step(guarded: bool)
      modifies this
      ensures (members, flag, fulfilled) == AfterStep(old(members), old(flag), old(fulfilled), guarded)
    {
      if !guarded || members != [] {
        SendRound();
        if !flag && forall i :: 0 <= i < |members| ==> members[i].finished {
          flag := true;
          fulfilled := fulfilled + 1;
        }
      }
    }
  }

  function AfterStep(ss: seq<Sender>, flag: bool, fulfilled: nat, guarded: bool): (seq<Sender>, bool, nat)
  {
    if guarded && ss == [] then (ss, flag, fulfilled)
    else
      var end := Round(ss);
      if !flag && AllFinished(end) then (end, true, fulfilled + 1) else (end, flag, fulfilled)
  }

  function AfterSteps(ss: seq<Sender>, guarded: bool, k: nat): (seq<Sender>, bool, nat)
  {
    if k == 0 then (ss, false, 0)
    else
      var (s, flag, fulfilled) := AfterSteps(ss, guarded, k - 1);
      AfterStep(s, flag, fulfilled, guarded)
  }

  /** With time synchronization the promise is fulfilled exactly once, by the step whose
      number is the largest effective quota; with no member at all it is fulfilled by the
      first step, unless the empty list is skipped. */
  lemma {:induction false} StepsFulfilOnce(ss: seq<Sender>, guarded: bool, k: nat)
    requires AllFresh(ss)
    ensures var (s, flag, fulfilled) := AfterSteps(ss, guarded, k);
            && s == Rounds(ss, k)
            && fulfilled == (if flag then 1 else 0)
            && (flag <==> k > 0 && if ss == [] then !guarded else k >= Largest(ss))
  {
    if k > 0 {
      StepsFulfilOnce(ss, guarded, k - 1);
      if ss != [] {
        SomeFinishedWhen(ss, k);
      }
    }
  }
}
