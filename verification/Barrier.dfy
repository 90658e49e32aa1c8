/** The barrier of the integration tests: `Enter` counts under a mutex, then either wakes
    everybody or waits on a condition variable until the expected number is reached.
    Threads are numbered; a waiting thread may also wake without being notified. */
module Barrier {

  /** Where a thread is in `Enter`. */
  datatype Pc =
    | Outside      // has not asked for the mutex
    | Entering     // holds the mutex, not counted
    | Counted      // holds the mutex, counted
    | MustNotify   // saw the expected number, released the mutex
    | Sleeping     // waits on the condition variable
    | Woken        // wants the mutex back
    | Rechecking   // holds the mutex again
    | Returned

  datatype State = State(expected: nat, have: nat, pcs: seq<Pc>)

  datatype Event =
    | Lock(t: nat)
    | Increment(t: nat)
    | Decide(t: nat)
    | NotifyAll(t: nat)
    | Spurious(t: nat)
    | Relock(t: nat)
    | Recheck(t: nat)

  function Start(expected: nat, threads: nat): State
  {
    State(expected, 0, seq(threads, t => Outside))
  }

  predicate Holds(pc: Pc)
  {
    pc.Entering? || pc.Counted? || pc.Rechecking?
  }

  predicate MutexFree(pcs: seq<Pc>)
  {
    forall t :: 0 <= t < |pcs| ==> !Holds(pcs[t])
  }

  predicate Enabled(s: State, e: Event)
  {
    e.t < |s.pcs| &&
    match e
    case Lock(t) => s.pcs[t].Outside? && MutexFree(s.pcs)
    case Increment(t) => s.pcs[t].Entering?
    case Decide(t) => s.pcs[t].Counted?
    case NotifyAll(t) => s.pcs[t].MustNotify?
    case Spurious(t) => s.pcs[t].Sleeping?
    case Relock(t) => s.pcs[t].Woken? && MutexFree(s.pcs)
    case Recheck(t) => s.pcs[t].Rechecking?
  }

  function Wake(pcs: seq<Pc>): (r: seq<Pc>)
    ensures |r| == |pcs|
  {
    seq(|pcs|, t requires 0 <= t < |pcs| => if pcs[t].Sleeping? then Woken else pcs[t])
  }

  function Goto(s: State, t: nat, pc: Pc): State
    requires t < |s.pcs|
  {
    s.(pcs := s.pcs[t := pc])
  }

  function Apply(s: State, e: Event): (s': State)
    requires Enabled(s, e)
    ensures |s'.pcs| == |s.pcs| && s'.expected == s.expected
  {
    match e
    case Lock(t) => Goto(s, t, Entering)
    case Increment(t) => Goto(s, t, Counted).(have := s.have + 1)
    case Decide(t) => Goto(s, t, if s.have >= s.expected then MustNotify else Sleeping)
    case NotifyAll(t) => s.(pcs := Wake(s.pcs[t := Returned]))
    case Spurious(t) => Goto(s, t, Woken)
    case Relock(t) => Goto(s, t, Rechecking)
    case Recheck(t) => Goto(s, t, if s.have == s.expected then Returned else Sleeping)
  }

  predicate ValidRun(s: State, es: seq<Event>)
    decreases |es|
  {
    es == [] || (Enabled(s, es[0]) && ValidRun(Apply(s, es[0]), es[1..]))
  }

  function Exec(s: State, es: seq<Event>): (s': State)
    requires ValidRun(s, es)
    ensures |s'.pcs| == |s.pcs| && s'.expected == s.expected
    decreases |es|
  {
    if es == [] then s else Exec(Apply(s, es[0]), es[1..])
  }

  // -------------------------------------------------------------------- the invariant

  predicate IsCounted(pc: Pc)
  {
    !pc.Outside? && !pc.Entering?
  }

  function Entered(pcs: seq<Pc>): nat
  {
    if pcs == [] then 0 else (if IsCounted(pcs[0]) then 1 else 0) + Entered(pcs[1..])
  }

  lemma {:induction false} EnteredUpdate(pcs: seq<Pc>, t: nat, pc: Pc)
    requires t < |pcs|
    ensures Entered(pcs[t := pc]) ==
              Entered(pcs) - (if IsCounted(pcs[t]) then 1 else 0) + (if IsCounted(pc) then 1 else 0)
  {
    if t > 0 {
      assert pcs[t := pc][1..] == pcs[1..][t - 1 := pc];
      EnteredUpdate(pcs[1..], t - 1, pc);
    } else {
      assert pcs[t := pc][1..] == pcs[1..];
    }
  }

  lemma {:induction false} EnteredWake(pcs: seq<Pc>)
    ensures Entered(Wake(pcs)) == Entered(pcs)
  {
    if pcs != [] {
      assert Wake(pcs)[1..] == Wake(pcs[1..]);
      EnteredWake(pcs[1..]);
    }
  }

  lemma {:induction false} EnteredAll(pcs: seq<Pc>)
    ensures Entered(pcs) <= |pcs|
    ensures Entered(pcs) == |pcs| <==> forall t :: 0 <= t < |pcs| ==> IsCounted(pcs[t])
  {
    if pcs != [] {
      EnteredAll(pcs[1..]);
      assert forall t :: 1 <= t < |pcs| ==> pcs[t] == pcs[1..][t - 1];
      if IsCounted(pcs[0]) && forall t :: 0 <= t < |pcs[1..]| ==> IsCounted(pcs[1..][t]) {
      } else if forall t :: 0 <= t < |pcs| ==> IsCounted(pcs[t]) {
        forall t | 0 <= t < |pcs[1..]| ensures IsCounted(pcs[1..][t]) {
          assert IsCounted(pcs[t + 1]);
        }
        assert false;
      }
    }
  }

  /** A thread that is bound to wake the others. */
  predicate WillNotify(s: State, t: nat)
  {
    t < |s.pcs| && (s.pcs[t].MustNotify? || (s.pcs[t].Counted? && s.have >= s.expected))
  }

  predicate Exclusive(pcs: seq<Pc>)
  {
    forall t, u :: 0 <= t < u < |pcs| ==> !(Holds(pcs[t]) && Holds(pcs[u]))
  }

  ghost predicate Inv(s: State)
  {
    && Exclusive(s.pcs)
    && s.have == Entered(s.pcs)
    && (forall t :: 0 <= t < |s.pcs| ==> s.pcs[t].MustNotify? || s.pcs[t].Returned? ==> s.have >= s.expected)
    && (s.have >= s.expected ==>
          forall t {:trigger s.pcs[t]} :: 0 <= t < |s.pcs| && s.pcs[t].Sleeping? ==> exists u :: WillNotify(s, u))
  }

  lemma {:induction false} EnteredNone(n: nat)
    ensures Entered(seq(n, t => Outside)) == 0
  {
    if n > 0 {
      assert seq(n, t => Outside)[1..] == seq(n - 1, t => Outside);
      EnteredNone(n - 1);
    }
  }

  lemma StartInv(expected: nat, threads: nat)
    ensures Inv(Start(expected, threads))
  {
    EnteredNone(threads);
  }

  lemma PreserveNotify(s: State, t: nat)
    requires Inv(s) && Enabled(s, NotifyAll(t))
    ensures Inv(Apply(s, NotifyAll(t)))
  {
    EnteredUpdate(s.pcs, t, Returned);
    EnteredWake(s.pcs[t := Returned]);
  }

  /** A step by which the thread itself ends up bound to notify if anybody is. */
  lemma PreserveEntry(s: State, e: Event)
    requires Inv(s) && Enabled(s, e) && (e.Increment? || e.Decide?)
    ensures Inv(Apply(s, e))
  {
    var s' := Apply(s, e);
    EnteredUpdate(s.pcs, e.t, s'.pcs[e.t]);
    assert s'.have >= s'.expected ==> WillNotify(s', e.t);
  }

  lemma PreserveLock(s: State, t: nat)
    requires Inv(s) && Enabled(s, Lock(t)) && |s.pcs| <= s.expected
    ensures Inv(Apply(s, Lock(t)))
  {
    EnteredUpdate(s.pcs, t, Entering);
    EnteredAll(s.pcs);
    assert s.have < s.expected;
  }

  lemma PreserveWait(s: State, e: Event)
    requires Inv(s) && Enabled(s, e) && (e.Spurious? || e.Relock? || e.Recheck?) && |s.pcs| <= s.expected
    ensures Inv(Apply(s, e))
  {
    var s' := Apply(s, e);
    EnteredUpdate(s.pcs, e.t, s'.pcs[e.t]);
    KeepsNotifier(s, e);
  }

  lemma Preserve(s: State, e: Event)
    requires Inv(s) && Enabled(s, e) && |s.pcs| <= s.expected
    ensures Inv(Apply(s, e))
  {
    match e
    case NotifyAll(t) => PreserveNotify(s, t);
    case Increment(_) => PreserveEntry(s, e);
    case Decide(_) => PreserveEntry(s, e);
    case Lock(t) => PreserveLock(s, t);
    case _ => PreserveWait(s, e);
  }

  lemma KeepsNotifier(s: State, e: Event)
    requires Inv(s) && Enabled(s, e) && (e.Spurious? || e.Relock? || e.Recheck?) && |s.pcs| <= s.expected
    ensures var s' := Apply(s, e);
            s'.have >= s'.expected ==>
              forall t {:trigger s'.pcs[t]} :: 0 <= t < |s'.pcs| && s'.pcs[t].Sleeping? ==>
                exists u :: WillNotify(s', u)
  {
    var s' := Apply(s, e);
    EnteredAll(s.pcs);
    if s'.have >= s'.expected {
      forall t | 0 <= t < |s'.pcs| && s'.pcs[t].Sleeping? ensures exists u :: WillNotify(s', u) {
        assert s.pcs[t].Sleeping?;
        var u :| WillNotify(s, u);
        assert WillNotify(s', u);
      }
    }
  }

  lemma {:induction false} RunInv(s: State, es: seq<Event>)
    requires Inv(s) && ValidRun(s, es) && |s.pcs| <= s.expected
    ensures Inv(Exec(s, es))
    decreases |es|
  {
    if es != [] {
      Preserve(s, es[0]);
      RunInv(Apply(s, es[0]), es[1..]);
    }
  }

  // --------------------------------------------------------------------- the theorems

  /** No thread returns before all the expected threads have entered. */
  lemma NobodyReturnsEarly(expected: nat, threads: nat, es: seq<Event>, t: nat)
    requires threads <= expected && ValidRun(Start(expected, threads), es)
    requires t < threads && Exec(Start(expected, threads), es).pcs[t].Returned?
    ensures threads == expected
    ensures forall u :: 0 <= u < threads ==> IsCounted(Exec(Start(expected, threads), es).pcs[u])
  {
    StartInv(expected, threads);
    RunInv(Start(expected, threads), es);
    EnteredAll(Exec(Start(expected, threads), es).pcs);
  }

  /** After the last entry a thread sleeps only while another one is bound to notify it. */
  lemma NobodySleepsForgotten(expected: nat, threads: nat, es: seq<Event>, t: nat)
    requires threads <= expected && ValidRun(Start(expected, threads), es)
    requires t < threads && Exec(Start(expected, threads), es).pcs[t].Sleeping?
    requires Exec(Start(expected, threads), es).have >= expected
    ensures exists u :: u != t && WillNotify(Exec(Start(expected, threads), es), u)
  {
    StartInv(expected, threads);
    RunInv(Start(expected, threads), es);
    var s := Exec(Start(expected, threads), es);
    var u :| WillNotify(s, u);
    assert u != t;
  }

  /** A run stops only when everybody has returned, or waits because somebody is missing. */
  lemma StopsOnlyWhenDone(expected: nat, threads: nat, es: seq<Event>, t: nat)
    requires threads <= expected && ValidRun(Start(expected, threads), es) && t < threads
    requires forall e :: Enabled(Exec(Start(expected, threads), es), e) ==> e.Spurious?
    ensures Exec(Start(expected, threads), es).pcs[t] == if threads == expected then Returned else Sleeping
  {
    StartInv(expected, threads);
    RunInv(Start(expected, threads), es);
    var s := Exec(Start(expected, threads), es);
    forall u: nat | u < threads ensures s.pcs[u].Sleeping? || s.pcs[u].Returned? {
      assert !Enabled(s, Increment(u)) && !Enabled(s, Decide(u));
      assert !Enabled(s, NotifyAll(u)) && !Enabled(s, Recheck(u));
      assert !Enabled(s, Lock(u)) && !Enabled(s, Relock(u));
      forall v: nat | v < threads ensures !Holds(s.pcs[v]) {
        assert !Enabled(s, Increment(v)) && !Enabled(s, Decide(v)) && !Enabled(s, Recheck(v));
      }
    }
    EnteredAll(s.pcs);
    assert s.have == threads && forall u :: !WillNotify(s, u);
  }

  // ------------------------------------------------------------------ bounded running

  /** How many steps a thread has still to make, at most, if it is not woken for nothing.
      To notify costs the others two steps each. */
  function Rank(pc: Pc, n: nat): nat
  {
    match pc
    case Returned => 0
    case Sleeping => 1
    case Rechecking => 2
    case Woken => 3
    case MustNotify => 2 * n + 1
    case Counted => 2 * n + 2
    case Entering => 2 * n + 3
    case Outside => 2 * n + 4
  }

  function Measure(pcs: seq<Pc>, n: nat): nat
  {
    if pcs == [] then 0 else Rank(pcs[0], n) + Measure(pcs[1..], n)
  }

  lemma {:induction false} MeasureUpdate(pcs: seq<Pc>, t: nat, pc: Pc, n: nat)
    requires t < |pcs|
    ensures Measure(pcs[t := pc], n) == Measure(pcs, n) - Rank(pcs[t], n) + Rank(pc, n)
  {
    if t > 0 {
      assert pcs[t := pc][1..] == pcs[1..][t - 1 := pc];
      MeasureUpdate(pcs[1..], t - 1, pc, n);
    } else {
      assert pcs[t := pc][1..] == pcs[1..];
    }
  }

  lemma {:induction false} MeasureWake(pcs: seq<Pc>, n: nat)
    ensures Measure(Wake(pcs), n) <= Measure(pcs, n) + 2 * |pcs|
  {
    if pcs != [] {
      assert Wake(pcs)[1..] == Wake(pcs[1..]);
      MeasureWake(pcs[1..], n);
    }
  }

  lemma {:induction false} MeasureStart(n: nat, k: nat)
    ensures Measure(seq(k, t => Outside), n) == k * (2 * n + 4)
  {
    if k > 0 {
      assert seq(k, t => Outside)[1..] == seq(k - 1, t => Outside);
      MeasureStart(n, k - 1);
    }
  }

  lemma EveryStepCounts(s: State, e: Event)
    requires Enabled(s, e)
    ensures var n := |s.pcs|;
            Measure(Apply(s, e).pcs, n) <= Measure(s.pcs, n) + if e.Spurious? then 2 else -1
  {
    var s', t, n := Apply(s, e), e.t, |s.pcs|;
    if e.NotifyAll? {
      MeasureUpdate(s.pcs, t, Returned, n);
      MeasureWake(s.pcs[t := Returned], n);
    } else {
      MeasureUpdate(s.pcs, t, s'.pcs[t], n);
    }
  }

  function SpuriousCount(es: seq<Event>): nat
  {
    if es == [] then 0 else (if es[0].Spurious? then 1 else 0) + SpuriousCount(es[1..])
  }

  lemma {:induction false} RunIsBounded(s: State, es: seq<Event>)
    requires ValidRun(s, es)
    ensures |es| <= Measure(s.pcs, |s.pcs|) + 3 * SpuriousCount(es)
    decreases |es|
  {
    if es != [] {
      EveryStepCounts(s, es[0]);
      RunIsBounded(Apply(s, es[0]), es[1..]);
    }
  }

  /** Every run is finite, up to wake-ups for nothing; so, by `StopsOnlyWhenDone`, all the
      expected threads return. */
  lemma EveryRunEnds(expected: nat, threads: nat, es: seq<Event>)
    requires ValidRun(Start(expected, threads), es)
    ensures |es| <= threads * (2 * threads + 4) + 3 * SpuriousCount(es)
  {
    MeasureStart(threads, threads);
    RunIsBounded(Start(expected, threads), es);
  }

  // ------------------------------------------------------- more threads than expected

  /** A thread that waits for a number that is already passed. */
  predicate Stranded(s: State, t: nat)
  {
    t < |s.pcs| && (s.pcs[t].Sleeping? || s.pcs[t].Woken? || s.pcs[t].Rechecking?) && s.have > s.expected
  }

  lemma {:induction false} StrandedForever(s: State, es: seq<Event>, t: nat)
    requires Stranded(s, t) && ValidRun(s, es)
    ensures Stranded(Exec(s, es), t)
    decreases |es|
  {
    if es != [] {
      StrandedForever(Apply(s, es[0]), es[1..], t);
    }
  }

  lemma {:induction false} Append(s: State, es: seq<Event>, e: Event)
    requires ValidRun(s, es) && Enabled(Exec(s, es), e)
    ensures ValidRun(s, es + [e]) && Exec(s, es + [e]) == Apply(Exec(s, es), e)
    decreases |es|
  {
    if es != [] {
      assert (es + [e])[1..] == es[1..] + [e];
      Append(Apply(s, es[0]), es[1..], e);
    }
  }

  /** Thread `t` enters and decides, with nobody at the mutex. */
  lemma Enters(start: State, es: seq<Event>, t: nat) returns (es': seq<Event>)
    requires ValidRun(start, es)
    requires var s := Exec(start, es); t < |s.pcs| && s.pcs[t].Outside? && MutexFree(s.pcs)
    ensures ValidRun(start, es')
    ensures var s := Exec(start, es);
            Exec(start, es') ==
              State(s.expected, s.have + 1, s.pcs[t := if s.have + 1 >= s.expected then MustNotify else Sleeping])
  {
    var s := Exec(start, es);
    Append(start, es, Lock(t));
    Append(start, es + [Lock(t)], Increment(t));
    Append(start, es + [Lock(t)] + [Increment(t)], Decide(t));
    es' := es + [Lock(t)] + [Increment(t)] + [Decide(t)];
    var pc := if s.have + 1 >= s.expected then MustNotify else Sleeping;
    assert s.pcs[t := Entering][t := Counted][t := pc] == s.pcs[t := pc];
  }

  /** The first `k` threads have entered one after the other. */
  lemma {:induction false} EnterInTurn(expected: nat, threads: nat, k: nat) returns (es: seq<Event>)
    requires k <= threads
    ensures ValidRun(Start(expected, threads), es)
    ensures var s := Exec(Start(expected, threads), es);
            && s.have == k
            && forall t :: 0 <= t < threads ==>
                 s.pcs[t] == if t >= k then Outside else if t + 1 >= expected then MustNotify else Sleeping
  {
    es := [];
    if k > 0 {
      es := EnterInTurn(expected, threads, k - 1);
      es := Enters(Start(expected, threads), es, k - 1);
    }
  }

  predicate NoWaiter(s: State)
  {
    && (forall t :: 0 <= t < |s.pcs| ==> !s.pcs[t].Sleeping? && !s.pcs[t].Woken? && !s.pcs[t].Rechecking?)
    && (forall t :: 0 <= t < |s.pcs| && s.pcs[t].Counted? ==> s.have >= 1)
  }

  lemma {:induction false} NobodyWaitsForOne(s: State, es: seq<Event>)
    requires s.expected <= 1 && NoWaiter(s) && ValidRun(s, es)
    ensures NoWaiter(Exec(s, es))
    decreases |es|
  {
    if es != [] {
      NobodyWaitsForOne(Apply(s, es[0]), es[1..]);
    }
  }

  lemma {:induction false} HaveIsBounded(s: State, es: seq<Event>)
    requires ValidRun(s, es) && s.have == Entered(s.pcs)
    ensures Exec(s, es).have <= |s.pcs|
    decreases |es|
  {
    EnteredAll(s.pcs);
    if es != [] {
      var s', t := Apply(s, es[0]), es[0].t;
      if es[0].NotifyAll? {
        EnteredUpdate(s.pcs, t, Returned);
        EnteredWake(s.pcs[t := Returned]);
      } else {
        EnteredUpdate(s.pcs, t, s'.pcs[t]);
      }
      HaveIsBounded(s', es[1..]);
    }
  }

  /** No thread can be left waiting for ever by an entry too many if and only if there is
      no such entry, or nobody ever waits. */
  lemma NobodyIsStrandedIff(expected: nat, threads: nat)
    ensures (forall es, t | ValidRun(Start(expected, threads), es) :: !Stranded(Exec(Start(expected, threads), es), t))
              <==> threads <= expected || expected <= 1
  {
    var start := Start(expected, threads);
    if threads <= expected {
      forall es, t | ValidRun(start, es) ensures !Stranded(Exec(start, es), t) {
        EnteredNone(threads);
        HaveIsBounded(start, es);
      }
    } else if expected <= 1 {
      forall es, t | ValidRun(start, es) ensures !Stranded(Exec(start, es), t) {
        NobodyWaitsForOne(start, es);
      }
    } else {
      var es := EnterInTurn(expected, threads, expected + 1);
      assert Stranded(Exec(start, es), 0);
    }
  }
}
