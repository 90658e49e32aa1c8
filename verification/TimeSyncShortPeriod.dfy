/** When a coordinated start can be mistaken for joining a running simulation: exactly when
    there are three participants or more and some period can be shortened. If messages could
    overtake the check that a participant queues with its announcement, two would do. */
module TimeSyncShortPeriod {
  import opened TimeConfig
  import opened TimeSync
  import opened TimeSyncTheorems
  import opened TimeSyncStart
  import opened TimeSyncOrdered

  /** Some run, prompt if asked for, that sets no other period than `q` aborts `p`. */
  ghost predicate CanAbort(g0: Net, p: Name, q: nat, prompt: bool)
  {
    exists g: Net :: CanReach(g0, g, q, prompt) && p in g && g[p].aborted
  }

  /** The same for ordered runs. */
  ghost predicate OrderedCanAbort(g0: Net, p: Name, q: nat)
  {
    exists es :: && ValidRun(g0, es) && OnlyPeriod(es, q) && OrderedRun(g0, map[], es)
                 && p in Exec(g0, es) && Exec(g0, es)[p].aborted
  }

  // ------------------------------------------------------------ three participants or more

  /** `b` is inside its first step; `a` has heard of everybody but `c`. */
  ghost predicate Trap(g0: Net, g: Net, a: Name, b: Name, c: Name)
  {
    && a in g0 && b in g0 && c in g0 && a != b && a != c && b != c && g.Keys == g0.Keys && FirstSteps(g0)
    && Waits(g[a], g0, a, g0.Keys, g0.Keys - {a, c}, true) && Begun(g[b], g0, b) && g[a].pending == 0
  }

  /** Everybody starts and runs its check, `b` hears of everybody, and `a` of all but `c`. */
  lemma ReachesTrap(g0: Net, a: Name, b: Name, c: Name, q: nat) returns (g: Net)
    requires Init(g0) && a in g0 && b in g0 && c in g0 && a != b && a != c && b != c
    ensures CanReach(g0, g, q, true) && Trap(g0, g, a, b, c)
  {
    var ph0 := Nobody(g0);
    InitAt(g0);
    ReachesItself(g0, q, true);
    TwoMembers(g0.Keys, a, b);
    InitSettled(g0);
    var g1 := StartAll(g0, g0, ph0, g0.Keys, q, true);
    var ph1 := ph0.(started := g0.Keys);
    var g2 := BeginsFirstStep(g0, g1, ph1, b, q, true);
    var ph2 := ph1.(heard := ph1.heard[b := g0.Keys - {b}], begun := ph1.begun + {b});
    g := HearsAllBut(g0, g2, ph2, a, b, c, q);
  }

  lemma InitSettled(g0: Net)
    requires Init(g0)
    ensures Settled(g0)
  {
    forall p | p in g0 ensures g0[p].pending == 0 {
      assert Idle(g0[p], g0.Keys - {p});
    }
  }

  lemma HearsAllBut(g0: Net, g2: Net, ph2: Phase, a: Name, b: Name, c: Name, q: nat) returns (g: Net)
    requires CanReach(g0, g2, q, true) && At(g0, g2, ph2) && Settled(g2) && ph2.started == g0.Keys
    requires a in g0 && b in g0 && c in g0 && a != b && a != c && b != c
    requires ph2.begun == {} + {b} && ph2.heard[a] == {}
    ensures CanReach(g0, g, q, true) && Trap(g0, g, a, b, c)
  {
    var most := g0.Keys - {a, c};
    g := HearAll(g0, g2, ph2, a, most, q, true);
    var ph3 := ph2.(heard := ph2.heard[a := most]);
    assert MemberAt(g0, g, ph3, a) && MemberAt(g0, g, ph3, b);
  }

  /** `b` shortens its period and completes; `a` hears of that and then of `c`. */
  lemma SpringsTrap(g0: Net, g: Net, a: Name, b: Name, c: Name, q: nat)
    requires CanReach(g0, g, q, true) && Trap(g0, g, a, b, c) && q < g0[b].cfg.next.duration
    ensures CanAbort(g0, a, q, true)
  {
    var short := NextSimTask(g0[b].cfg.next.duration, q);
    assert IsFirst(g0[b].cfg.next);
    ReachesNext(g0, g, SetPeriod(b, q), q, true);
    var g1 := Apply(g, SetPeriod(b, q));
    assert g1[a] == g[a] && g1[b].cfg.next == short && g1[b].lastSent == 0 && g1[b].executing && g1[b].started;
    ReachesNext(g0, g1, Complete(b), q, true);
    var g2 := Apply(g1, Complete(b));
    assert Announces(g1[b].(executing := false)) && g2[a] == Append(g[a], b, Announce(short));
    HearsShort(g0, g[a], a, b, c, short);
    ReachesNext(g0, g2, Deliver(a, b), q, true);
    var g3 := Apply(g2, Deliver(a, b));
    ReachesNext(g0, g3, Deliver(a, c), q, true);
    assert Apply(g3, Deliver(a, c))[a].aborted;
  }

  lemma HearsShort(g0: Net, n: Node, a: Name, b: Name, c: Name, short: NextSimTask)
    requires a in g0 && b in g0 && c in g0 && a != b && a != c && b != c && FirstSteps(g0)
    requires Waits(n, g0, a, g0.Keys, g0.Keys - {a, c}, true)
    requires short.timePoint >= 0 && IsPastFirstStep(short)
    ensures var m := Append(n, b, Announce(short));
            && b in m.inbox && m.inbox[b] != [] && !m.executing
            && var r := Receive(m, b);
            && c in r.inbox && r.inbox[c] != [] && !r.executing && r.pending == n.pending && Receive(r, c).aborted
  {
    var m := Append(n, b, Announce(short));
    assert b in n.inbox && n.inbox[b] == [] && m.inbox[b] == [Announce(short)] && m.inbox[b][1..] == [];
    assert c in n.inbox && n.inbox[c] == [Announce(g0[c].cfg.next)] && n.cfg.others[c] == UNKNOWN;
    var u := Learns(m, b, short);
    assert IsFirst(g0[a].cfg.next) && u.cfg.others[c] == UNKNOWN && HasLower(u.cfg);
    assert Receive(m, b) == Process(u) == u;
    forall x | x in u.cfg.others && x != c ensures u.cfg.others[x].timePoint >= 0 {
      assert x in n.inbox && IsFirst(g0[x].cfg.next);
    }
    assert IsFirst(g0[c].cfg.next);
    HearsOfLast(u, b, c, g0[c].cfg.next);
  }

  /** The last one heard of makes a participant abort that knows of a second step. */
  lemma HearsOfLast(u: Node, b: Name, c: Name, task: NextSimTask)
    requires u.started && !u.executing && u.cfg.current == UNKNOWN && u.cfg.next.timePoint == 0
    requires b in u.cfg.others && c in u.cfg.others && b != c && IsPastFirstStep(u.cfg.others[b])
    requires c in u.inbox && u.inbox[c] == [Announce(task)] && task.timePoint >= 0
    requires forall x :: x in u.cfg.others && x != c ==> u.cfg.others[x].timePoint >= 0
    ensures Receive(u, c).aborted
  {
    var v := Learns(u, c, task);
    assert u.inbox[c][0] == Announce(task) && u.inbox[c][1..] == [];
    assert Receive(u, c) == Process(v);
    assert !HasLower(v.cfg) && IsPastFirstStep(v.cfg.others[b]) && SeesRunningSimulation(v.cfg);
  }

  /** With three participants or more: if one may shorten its period, any other one can be
      aborted. */
  lemma ShortenedPeriodAbortsTheStart(g0: Net, a: Name, b: Name, c: Name, q: nat)
    requires Init(g0) && a in g0 && b in g0 && c in g0 && a != b && a != c && b != c
    requires q < g0[b].cfg.next.duration
    ensures CanAbort(g0, a, q, true)
  {
    var g := ReachesTrap(g0, a, b, c, q);
    SpringsTrap(g0, g, a, b, c, q);
  }

  // ------------------------------------------------------------ without the executor's order

  /** `a` has heard of everybody and then started; `b` is inside its first step. */
  ghost predicate LooseTrap(g0: Net, g: Net, a: Name, b: Name)
  {
    && a in g0 && b in g0 && a != b && g.Keys == g0.Keys && FirstSteps(g0)
    && Waits(g[a], g0, a, g0.Keys, g0.Keys - {a}, true) && Begun(g[b], g0, b)
  }

  /** Everybody else starts, `a` hears of them, `a` starts, `b` hears of everybody. */
  lemma ReachesLooseTrap(g0: Net, a: Name, b: Name, q: nat) returns (g: Net)
    requires Init(g0) && a in g0 && b in g0 && a != b
    ensures CanReach(g0, g, q, false) && LooseTrap(g0, g, a, b)
  {
    var rest, ph0 := g0.Keys - {a}, Nobody(g0);
    InitAt(g0);
    ReachesItself(g0, q, false);
    var g1 := StartAll(g0, g0, ph0, rest, q, false);
    var ph1 := ph0.(started := rest);
    var g2 := HearAll(g0, g1, ph1, a, rest, q, false);
    var ph2 := ph1.(heard := ph1.heard[a := rest]);
    g := LastStarts(g0, g2, ph2, a, b, q);
  }

  lemma LastStarts(g0: Net, g2: Net, ph2: Phase, a: Name, b: Name, q: nat) returns (g: Net)
    requires CanReach(g0, g2, q, false) && At(g0, g2, ph2) && a in g0 && b in g0 && a != b
    requires ph2.started == g0.Keys - {a} && ph2.begun == {} && ph2.heard[a] == g0.Keys - {a} && ph2.heard[b] == {}
    ensures CanReach(g0, g, q, false) && LooseTrap(g0, g, a, b)
  {
    var g3 := StartAll(g0, g2, ph2, g0.Keys, q, false);
    var ph3 := ph2.(started := g0.Keys);
    TwoMembers(g0.Keys, a, b);
    g := BeginsFirstStep(g0, g3, ph3, b, q, false);
    var ph4 := ph3.(heard := ph3.heard[b := g0.Keys - {b}], begun := ph3.begun + {b});
    assert MemberAt(g0, g, ph4, a) && MemberAt(g0, g, ph4, b);
  }

  lemma TwoMembers(names: set<Name>, a: Name, b: Name)
    requires a in names && b in names && a != b
    ensures |names| >= 2
  {
    assert |{a, b}| == 2 && names == {a, b} + (names - {a, b});
  }

  /** `b` shortens its period and completes; its announcement overtakes the check of `a`. */
  lemma SpringsLooseTrap(g0: Net, g: Net, a: Name, b: Name, q: nat)
    requires CanReach(g0, g, q, false) && LooseTrap(g0, g, a, b) && q < g0[b].cfg.next.duration
    ensures CanAbort(g0, a, q, false)
  {
    var short := NextSimTask(g0[b].cfg.next.duration, q);
    assert IsFirst(g0[b].cfg.next);
    ReachesNext(g0, g, SetPeriod(b, q), q, false);
    var g1 := Apply(g, SetPeriod(b, q));
    assert g1[a] == g[a] && g1[b].cfg.next == short && g1[b].lastSent == 0 && g1[b].executing && g1[b].started;
    ReachesNext(g0, g1, Complete(b), q, false);
    var g2 := Apply(g1, Complete(b));
    assert Announces(g1[b].(executing := false)) && g2[a] == Append(g[a], b, Announce(short));
    OvertakenByShort(g0, g[a], a, b, short);
    assert Enabled(g2, Deliver(a, b));
    ReachesNext(g0, g2, Deliver(a, b), q, false);
    assert Apply(g2, Deliver(a, b))[a].aborted;
  }

  lemma OvertakenByShort(g0: Net, n: Node, a: Name, b: Name, short: NextSimTask)
    requires a in g0 && b in g0 && a != b && FirstSteps(g0) && Waits(n, g0, a, g0.Keys, g0.Keys - {a}, true)
    requires short.timePoint >= 0 && IsPastFirstStep(short)
    ensures var m := Append(n, b, Announce(short));
            b in m.inbox && m.inbox[b] == [Announce(short)] && Receive(m, b).aborted
  {
    var m := Append(n, b, Announce(short));
    assert b in n.inbox && m.inbox[b] == [] + [Announce(short)];
    var u := Learns(m, b, short);
    forall x | x in u.cfg.others ensures u.cfg.others[x].timePoint >= 0 {
      assert x in n.inbox && IsFirst(g0[x].cfg.next);
    }
    assert IsFirst(g0[a].cfg.next) && !HasLower(u.cfg);
    assert IsPastFirstStep(u.cfg.others[b]) && SeesRunningSimulation(u.cfg);
    assert m.inbox[b][0] == Announce(short) && m.inbox[b][1..] == [] && b in m.cfg.others;
    assert Receive(m, b) == Process(u);
  }

  // ------------------------------------------------------------------- and no other one

  ghost predicate NotLonger(g: Net, q: nat)
  {
    forall p {:trigger g[p]} :: p in g ==> g[p].cfg.next.duration <= q
  }

  lemma StaysNotLonger(g: Net, e: Event, q: nat)
    requires NotLonger(g, q) && Enabled(g, e) && (e.SetPeriod? ==> e.period == q)
    ensures NotLonger(Apply(g, e), q)
  {
    var g' := Apply(g, e);
    forall p | p in g' ensures g'[p].cfg.next.duration <= q {
      assert p in g && (g'[p].cfg.next.duration == g[p].cfg.next.duration || g'[p].cfg.next.duration == q);
    }
  }

  lemma {:induction false} LongestNeverShrinks(g: Net, es: seq<Event>, q: nat)
    requires NotLonger(g, q) && ValidRun(g, es) && OnlyPeriod(es, q)
    ensures PeriodsNeverShrink(g, es)
    decreases |es|
  {
    if es != [] {
      StaysNotLonger(g, es[0], q);
      LongestNeverShrinks(Apply(g, es[0]), es[1..], q);
    }
  }

  /** Nobody aborts if the period that is set is not shorter than any other. */
  lemma LongerNeverAborts(g0: Net, es: seq<Event>, p: Name, q: nat)
    requires Init(g0) && NotLonger(g0, q) && ValidRun(g0, es) && OnlyPeriod(es, q) && p in Exec(g0, es)
    ensures !Exec(g0, es)[p].aborted
  {
    LongestNeverShrinks(g0, es, q);
    NoFalseLateJoin(g0, es, p);
  }

  ghost predicate NoneAborted(g: Net)
  {
    forall p {:trigger g[p]} :: p in g ==> !g[p].aborted && g[p].cfg.others == map[]
  }

  lemma {:induction false} AloneNeverAborts(g: Net, es: seq<Event>)
    requires NoneAborted(g) && ValidRun(g, es)
    ensures NoneAborted(Exec(g, es))
    decreases |es|
  {
    if es != [] {
      var g' := Apply(g, es[0]);
      forall p | p in g' ensures !g'[p].aborted && g'[p].cfg.others == map[] {
        assert p in g && !g[p].aborted && g[p].cfg.others == map[];
      }
      AloneNeverAborts(g', es[1..]);
    }
  }

  lemma OneIsAlone(g0: Net)
    requires Init(g0) && |g0.Keys| < 2
    ensures NoneAborted(g0)
  {
    forall x | x in g0 ensures !g0[x].aborted && g0[x].cfg.others == map[] {
      assert Idle(g0[x], g0.Keys - {x});
      assert g0.Keys == {x} + (g0.Keys - {x});
    }
  }

  lemma OneNeverAborts(g0: Net, es: seq<Event>, p: Name)
    requires Init(g0) && |g0.Keys| < 2 && ValidRun(g0, es) && p in Exec(g0, es)
    ensures !Exec(g0, es)[p].aborted
  {
    OneIsAlone(g0);
    AloneNeverAborts(g0, es);
  }

  lemma PairOf(names: set<Name>) returns (a: Name, b: Name)
    requires |names| == 2
    ensures a != b && names == {a, b}
  {
    a :| a in names;
    b := AnotherOne(names, a);
    assert |names - {a, b}| == 0;
  }

  lemma ThirdOne(names: set<Name>, a: Name, b: Name) returns (c: Name)
    requires a in names && b in names && a != b && |names| >= 3
    ensures c in names && c != a && c != b
  {
    assert names == {a, b} + (names - {a, b});
    c :| c in names - {a, b};
  }

  // ---------------------------------------------------------------------- the conditions

  ghost predicate CanShorten(g0: Net, q: nat)
  {
    exists b :: b in g0 && q < g0[b].cfg.next.duration
  }

  lemma OrderedNeverAborts(g0: Net, es: seq<Event>, p: Name, q: nat)
    requires Init(g0) && !(|g0.Keys| >= 3 && CanShorten(g0, q))
    requires ValidRun(g0, es) && OnlyPeriod(es, q) && OrderedRun(g0, map[], es) && p in Exec(g0, es)
    ensures !Exec(g0, es)[p].aborted
  {
    if |g0.Keys| < 2 {
      OneNeverAborts(g0, es, p);
    } else if |g0.Keys| == 2 {
      var a, b := PairOf(g0.Keys);
      SameMembers(g0, es);
      TwoNeverAbort(g0, es, a, b);
    } else {
      LongerNeverAborts(g0, es, p, q);
    }
  }

  /** For every initial net, with any number of participants, any periods and handler modes:
      some ordered run in which periods are set to `q` aborts somebody if and only if there
      are three participants or more and `q` is shorter than the period of one of them. It
      makes no difference if only prompt runs are asked for. */
  lemma StartCanAbortIff(g0: Net, q: nat)
    requires Init(g0)
    ensures (exists p :: OrderedCanAbort(g0, p, q)) <==> |g0.Keys| >= 3 && CanShorten(g0, q)
    ensures (exists p :: CanAbort(g0, p, q, true)) <==> |g0.Keys| >= 3 && CanShorten(g0, q)
  {
    if |g0.Keys| >= 3 && CanShorten(g0, q) {
      var b :| b in g0 && q < g0[b].cfg.next.duration;
      var a := AnotherOne(g0.Keys, b);
      var c := ThirdOne(g0.Keys, a, b);
      ShortenedPeriodAbortsTheStart(g0, a, b, c, q);
      PromptCanAbortOrdered(g0, a, q);
    } else {
      forall p ensures !OrderedCanAbort(g0, p, q) && !CanAbort(g0, p, q, true) {
        NoneCanAbort(g0, p, q);
      }
    }
  }

  lemma NoneCanAbort(g0: Net, p: Name, q: nat)
    requires Init(g0) && !(|g0.Keys| >= 3 && CanShorten(g0, q))
    ensures !OrderedCanAbort(g0, p, q) && !CanAbort(g0, p, q, true)
  {
    forall es | ValidRun(g0, es) && OnlyPeriod(es, q) && OrderedRun(g0, map[], es) && p in Exec(g0, es)
      ensures !Exec(g0, es)[p].aborted
    {
      OrderedNeverAborts(g0, es, p, q);
    }
    assert !OrderedCanAbort(g0, p, q);
    if CanAbort(g0, p, q, true) {
      PromptCanAbortOrdered(g0, p, q);
      assert false;
    }
  }

  lemma PromptCanAbortOrdered(g0: Net, p: Name, q: nat)
    requires CanAbort(g0, p, q, true)
    ensures OrderedCanAbort(g0, p, q)
  {
    var g: Net :| CanReach(g0, g, q, true) && p in g && g[p].aborted;
    var es :| ValidRun(g0, es) && OnlyPeriod(es, q) && PromptRun(g0, es) && Exec(g0, es) == g;
    PromptIsOrdered(g0, map[], es);
  }

  /** For an executor that keeps no order, two participants are enough. */
  lemma UnorderedStartCanAbortIff(g0: Net, q: nat)
    requires Init(g0)
    ensures (exists p :: CanAbort(g0, p, q, false)) <==> |g0.Keys| >= 2 && CanShorten(g0, q)
  {
    if |g0.Keys| >= 2 && CanShorten(g0, q) {
      var b :| b in g0 && q < g0[b].cfg.next.duration;
      var a := AnotherOne(g0.Keys, b);
      var g := ReachesLooseTrap(g0, a, b, q);
      SpringsLooseTrap(g0, g, a, b, q);
    } else {
      forall p ensures !CanAbort(g0, p, q, false) {
        UnorderedNeverAborts(g0, p, q);
      }
    }
  }

  lemma UnorderedNeverAborts(g0: Net, p: Name, q: nat)
    requires Init(g0) && !(|g0.Keys| >= 2 && CanShorten(g0, q))
    ensures !CanAbort(g0, p, q, false)
  {
    forall g: Net | CanReach(g0, g, q, false) && p in g ensures !g[p].aborted {
      var es :| ValidRun(g0, es) && OnlyPeriod(es, q) && Exec(g0, es) == g;
      if |g0.Keys| < 2 {
        OneNeverAborts(g0, es, p);
      } else {
        LongerNeverAborts(g0, es, p, q);
      }
    }
  }
}
