/** Merges of several streams that each keep their own order. A merge is the sequence of
    sender indices; the i-th message of a sender carries the number i. */
module Fifo {

  predicate IsSchedule(schedule: seq<nat>, senders: nat)
  {
    forall k :: 0 <= k < |schedule| ==> schedule[k] < senders
  }

  /** How many messages of each sender have arrived, after `schedule` on top of `counts`. */
  function Arrived(counts: seq<nat>, schedule: seq<nat>): (r: seq<nat>)
    requires IsSchedule(schedule, |counts|)
    ensures |r| == |counts|
    decreases |schedule|
  {
    if schedule == [] then counts
    else Arrived(counts[schedule[0] := counts[schedule[0]] + 1], schedule[1..])
  }

  /** The message numbers in order of arrival. */
  function Numbers(counts: seq<nat>, schedule: seq<nat>): (r: seq<nat>)
    requires IsSchedule(schedule, |counts|)
    ensures |r| == |schedule|
    decreases |schedule|
  {
    if schedule == [] then []
    else [counts[schedule[0]]] + Numbers(counts[schedule[0] := counts[schedule[0]] + 1], schedule[1..])
  }

  function All(senders: nat, n: nat): seq<nat>
  {
    seq(senders, i => n)
  }

  /** Every sender's `n` messages have arrived. */
  predicate IsCompleteMerge(schedule: seq<nat>, senders: nat, n: nat)
  {
    IsSchedule(schedule, senders) && Arrived(All(senders, 0), schedule) == All(senders, n)
  }

  function Sum(counts: seq<nat>): nat
  {
    if counts == [] then 0 else counts[0] + Sum(counts[1..])
  }

  lemma {:induction false} SumUpdate(counts: seq<nat>, p: nat)
    requires p < |counts|
    ensures Sum(counts[p := counts[p] + 1]) == Sum(counts) + 1
  {
    if p > 0 {
      assert counts[p := counts[p] + 1][1..] == counts[1..][p - 1 := counts[1..][p - 1] + 1];
      SumUpdate(counts[1..], p - 1);
    } else {
      assert counts[p := counts[p] + 1][1..] == counts[1..];
    }
  }

  lemma {:induction false} SumAll(senders: nat, n: nat)
    ensures Sum(All(senders, n)) == senders * n
  {
    if senders > 0 {
      assert All(senders, n)[1..] == All(senders - 1, n);
      SumAll(senders - 1, n);
    }
  }

  lemma {:induction false} SumArrived(counts: seq<nat>, schedule: seq<nat>)
    requires IsSchedule(schedule, |counts|)
    ensures Sum(Arrived(counts, schedule)) == Sum(counts) + |schedule|
    decreases |schedule|
  {
    if schedule != [] {
      SumUpdate(counts, schedule[0]);
      SumArrived(counts[schedule[0] := counts[schedule[0]] + 1], schedule[1..]);
    }
  }

  /** A complete merge has one entry per message. */
  lemma CompleteLength(schedule: seq<nat>, senders: nat, n: nat)
    requires IsCompleteMerge(schedule, senders, n)
    ensures |schedule| == senders * n
  {
    SumArrived(All(senders, 0), schedule);
    SumAll(senders, 0);
    SumAll(senders, n);
  }

  // ------------------------------------------------------ how often a number arrives

  /** How many senders are past their message number `j`. */
  function Past(counts: seq<nat>, j: nat): nat
  {
    if counts == [] then 0 else (if j < counts[0] then 1 else 0) + Past(counts[1..], j)
  }

  lemma {:induction false} PastUpdate(counts: seq<nat>, p: nat, j: nat)
    requires p < |counts|
    ensures Past(counts[p := counts[p] + 1], j) == Past(counts, j) + if j == counts[p] then 1 else 0
  {
    if p > 0 {
      assert counts[p := counts[p] + 1][1..] == counts[1..][p - 1 := counts[1..][p - 1] + 1];
      PastUpdate(counts[1..], p - 1, j);
    } else {
      assert counts[p := counts[p] + 1][1..] == counts[1..];
    }
  }

  lemma {:induction false} PastAll(senders: nat, n: nat, j: nat)
    ensures Past(All(senders, n), j) == if j < n then senders else 0
  {
    if senders > 0 {
      assert All(senders, n)[1..] == All(senders - 1, n);
      PastAll(senders - 1, n, j);
    }
  }

  lemma {:induction false} NumbersCount(counts: seq<nat>, schedule: seq<nat>, j: nat)
    requires IsSchedule(schedule, |counts|)
    ensures multiset(Numbers(counts, schedule))[j] + Past(counts, j) == Past(Arrived(counts, schedule), j)
    decreases |schedule|
  {
    if schedule != [] {
      var counts' := counts[schedule[0] := counts[schedule[0]] + 1];
      PastUpdate(counts, schedule[0], j);
      NumbersCount(counts', schedule[1..], j);
      assert Numbers(counts, schedule) == [counts[schedule[0]]] + Numbers(counts', schedule[1..]);
    }
  }

  /** In a complete merge every message number arrives once per sender, in whatever order. */
  lemma CompleteCount(schedule: seq<nat>, senders: nat, n: nat, j: nat)
    requires IsCompleteMerge(schedule, senders, n)
    ensures multiset(Numbers(All(senders, 0), schedule))[j] == if j < n then senders else 0
  {
    NumbersCount(All(senders, 0), schedule, j);
    PastAll(senders, 0, j);
    PastAll(senders, n, j);
  }
}
